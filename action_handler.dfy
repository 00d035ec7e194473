/** `ActionHandler`: runs one parsed directive against a device. Each handler is specified by
    a plan: the commands it sends to the device, the cached screen size afterwards and the
    result it returns (or the exception it lets escape), as a function of the parameters, the
    cache and the shell's answers. */
module ActionHandling {
  import opened Wrappers
  import opened Strings
  import opened Dicts
  import opened JsonValues
  import opened Adb
  import opened Actions

  type Responder = (nat, Command) -> Reply

  datatype Outcome = Outcome(commands: seq<Command>, cache: Option<(int, int)>, result: Result<ActionResult, PyError>)

  /** A handler result that lets the task go on: whatever it returns does not ask to finish. */
  predicate Continues(r: Outcome) {
    r.result.Ok? ==> !r.result.value.shouldFinish
  }

  /** `_get_coords`: the screen size first, then the element's coordinates. */
  function CoordsAt(element: Json, cache: Option<(int, int)>, respond: Responder, n: nat): Result<(int, int), PyError> {
    var size := SizeSeen(cache, respond, n);
    Coords(element, size.0, size.1)
  }

  /** `KEYCODE_MOVE_END` and `KEYCODE_DEL`, and how many deletions a clear sends. */
  const KeyMoveEnd := 123
  const KeyDelete := 67
  const ClearCount := 50

  /** `k` copies of `c`. */
  function Repeat(c: Command, k: nat): (r: seq<Command>)
    ensures |r| == k && forall i :: 0 <= i < k ==> r[i] == c
  {
    seq(k, _ => c)
  }

  lemma RepeatSnoc(c: Command, k: nat)
    ensures Repeat(c, k + 1) == Repeat(c, k) + [c]
  {
    assert Repeat(c, k + 1)[..k] == Repeat(c, k);
  }

  /** What `clear` sends before typing: move to the end, then fifty deletions. */
  function ClearKeys(): seq<Command> {
    [KeyEvent(KeyMoveEnd)] + Repeat(KeyEvent(KeyDelete), ClearCount)
  }

  /** `input_text_adbime(text) or input_text(text)` from the n-th command on: the ADB keyboard
      first, the escaped `input text` only if the broadcast raised. A value that is not a
      string fails inside both methods before anything reaches the shell. */
  function InputSteps(respond: Responder, text: Json, n: nat): (r: (seq<Command>, bool))
    ensures r.1 ==> text.JString?
    ensures !text.JString? ==> r == ([], false)
    ensures text.JString? ==> 1 <= |r.0| <= 2 && r.0[0] == ImeBroadcast(text.s)
  {
    match text
    case JString(s) =>
      var ime := ImeBroadcast(s);
      if Succeeds(respond, n, ime) then ([ime], true)
      else
        var plain := InputText(EscapeText(s));
        ([ime, plain], Succeeds(respond, n + 1, plain))
    case _ => ([], false)
  }

  /** The ADB keyboard's answer decides: the plain fallback runs only when the broadcast
      raised, and then it alone decides. */
  lemma InputFallback(respond: Responder, s: string, n: nat)
    ensures var (cmds, ok) := InputSteps(respond, JString(s), n);
      && (Succeeds(respond, n, ImeBroadcast(s)) ==> cmds == [ImeBroadcast(s)] && ok)
      && (!Succeeds(respond, n, ImeBroadcast(s)) ==>
            cmds == [ImeBroadcast(s), InputText(EscapeText(s))]
            && ok == Succeeds(respond, n + 1, InputText(EscapeText(s))))
  {
  }

  lemma AppendAssoc(a: seq<Command>, b: seq<Command>, c: seq<Command>)
    ensures a + b + c == a + (b + c)
  {
  }

  function Report(ok: bool, success: string, failure: string): ActionResult {
    if ok then Succeeded(success) else Failed(failure)
  }

  // ---------------------------------------------------------------- plans

  /** `_handle_tap`: a tap, or a long press of `duration` (default 1000 ms) when
      `long_press` is truthy. */
  function TapPlan(codec: Codec, respond: Responder, params: Json, cache: Option<(int, int)>, n: nat): (r: Outcome)
    ensures Continues(r)
  {
    if !params.JObject? then Outcome([], cache, Err(AttributeError))
    else
      var pre := Looked(cache);
      var seen := Some(SizeSeen(cache, respond, n));
      match CoordsAt(GetOr(params, "element", Centre), cache, respond, n)
      case Err(e) => Outcome(pre, seen, Err(e))
      case Ok(p) =>
        var steps := TapSteps(codec, respond, params, p.0, p.1, n + |pre|);
        Outcome(pre + steps.0, seen, Ok(steps.1))
  }

  /** The tap (or long press) of `_handle_tap` at (x, y), issued as the n-th command. */
  function TapSteps(codec: Codec, respond: Responder, params: Json, x: int, y: int, n: nat): (r: (seq<Command>, ActionResult))
    requires params.JObject?
    ensures !r.1.shouldFinish
  {
    if Truthy(GetOr(params, "long_press", JBool(false))) then
      var duration := GetOr(params, "duration", JInt(1000));
      var c := InputSwipe(x, y, x, y, duration);
      ([c], Report(Succeeds(respond, n, c), "长按 " + Point(x, y) + " " + PyStr(codec, duration) + "ms", "长按失败"))
    else
      var c := InputTap(x, y);
      ([c], Report(Succeeds(respond, n, c), "点击 " + Point(x, y), "点击失败"))
  }

  /** The directions `_handle_swipe` recognises. */
  datatype Direction = Up | Down | Left | Right

  function DirectionName(d: Direction): string {
    match d
    case Up => "up"
    case Down => "down"
    case Left => "left"
    case Right => "right"
  }

  /** The direction a value names, compared exactly (no case folding). */
  function DirectionOf(d: Json): (r: Option<Direction>)
    ensures r.Some? ==> d == JString(DirectionName(r.value))
    ensures r.None? ==> forall dir: Direction :: d != JString(DirectionName(dir))
  {
    if d == JString("up") then Some(Up)
    else if d == JString("down") then Some(Down)
    else if d == JString("left") then Some(Left)
    else if d == JString("right") then Some(Right)
    else None
  }

  /** The path of the directional swipe, at the default distance of half the screen. */
  function DirectionPath(d: Direction, w: int, h: int): (int, int, int, int) {
    match d
    case Up => SwipeUpPath(w, h, 50)
    case Down => SwipeDownPath(w, h, 50)
    case Left => SwipeLeftPath(w, h, 50)
    case Right => SwipeRightPath(w, h, 50)
  }

  /** The default swipe duration of `swipe` and of the directional swipes. */
  const SwipeDuration: Json := JInt(300)

  /** `_handle_swipe` by direction (default "up"); an unknown direction fails without
      touching the device. */
  function DirectionPlan(respond: Responder, direction: Json, cache: Option<(int, int)>, n: nat): (r: Outcome)
    ensures Continues(r)
  {
    match DirectionOf(direction)
    case None => Outcome([], cache, Ok(Failed("滑动失败")))
    case Some(dir) =>
      var pre := Looked(cache);
      var size := SizeSeen(cache, respond, n);
      var c := SwipeCommand(DirectionPath(dir, size.0, size.1), SwipeDuration);
      Outcome(pre + [c], Some(size), Ok(Report(Succeeds(respond, n + |pre|, c), "滑动 " + direction.s, "滑动失败")))
  }

  /** A recognised direction: one swipe along its path, after the size is known. */
  lemma DirectionPlanSwipes(respond: Responder, direction: Json, cache: Option<(int, int)>, n: nat)
    requires DirectionOf(direction).Some?
    ensures var size := SizeSeen(cache, respond, n);
            var c := SwipeCommand(DirectionPath(DirectionOf(direction).value, size.0, size.1), SwipeDuration);
            DirectionPlan(respond, direction, cache, n)
            == Outcome(Looked(cache) + [c], Some(size),
                       Ok(Report(Succeeds(respond, n + |Looked(cache)|, c), "滑动 " + direction.s, "滑动失败")))
  {
  }

  /** `_handle_swipe`: an element of length four or more is a pair of grid points; otherwise
      the direction decides. `len` of a truthy number raises. */
  function SwipePlan(respond: Responder, params: Json, cache: Option<(int, int)>, n: nat): (r: Outcome)
    ensures Continues(r)
  {
    if !params.JObject? then Outcome([], cache, Err(AttributeError))
    else
      var element := GetOr(params, "element", JNull);
      var direction := GetOr(params, "direction", JString("up"));
      if Truthy(element) && Len(element).None? then Outcome([], cache, Err(TypeError))
      else if Truthy(element) && Len(element).value >= 4 then
        var pre := Looked(cache);
        var size := SizeSeen(cache, respond, n);
        match Corners(element, size.0, size.1)
        case Err(e) => Outcome(pre, Some(size), Err(e))
        case Ok(q) =>
          var c := InputSwipe(q.0, q.1, q.2, q.3, SwipeDuration);
          Outcome(pre + [c], Some(size), Ok(Report(Succeeds(respond, n + |pre|, c),
                                                     "滑动 " + Pair(q.0, q.1) + " -> " + Pair(q.2, q.3), "滑动失败")))
      else DirectionPlan(respond, direction, cache, n)
  }

  /** `_handle_drag`: a swipe from `start` to `end` (both default to the centre) lasting
      `duration` (default 1000 ms). The second conversion reuses the size read by the first. */
  function DragPlan(codec: Codec, respond: Responder, params: Json, cache: Option<(int, int)>, n: nat): (r: Outcome)
    ensures Continues(r)
  {
    if !params.JObject? then Outcome([], cache, Err(AttributeError))
    else
      var duration := GetOr(params, "duration", JInt(1000));
      var pre := Looked(cache);
      var size := SizeSeen(cache, respond, n);
      match Coords(GetOr(params, "start", Centre), size.0, size.1)
      case Err(e) => Outcome(pre, Some(size), Err(e))
      case Ok(from) =>
        match Coords(GetOr(params, "end", Centre), size.0, size.1)
        case Err(e) => Outcome(pre, Some(size), Err(e))
        case Ok(to) =>
          var c := InputSwipe(from.0, from.1, to.0, to.1, duration);
          Outcome(pre + [c], Some(size), Ok(Report(Succeeds(respond, n + |pre|, c),
            "拖拽 " + Pair(from.0, from.1) + " -> " + Pair(to.0, to.1) + " " + PyStr(codec, duration) + "ms", "拖拽失败")))
  }

  /** `_handle_type` */
  function TypePlan(respond: Responder, params: Json, cache: Option<(int, int)>, n: nat): (r: Outcome)
    ensures Continues(r)
  {
    if !params.JObject? then Outcome([], cache, Err(AttributeError))
    else
      var text := GetOr(params, "text", JString(""));
      if !Truthy(text) then Outcome([], cache, Ok(Failed("缺少输入文本")))
      else
        var input := InputSteps(respond, text, n);
        Outcome(input.0, cache, Ok(if input.1 then Succeeded("输入: " + Prefix(text.s, 20) + "...") else Failed("输入失败")))
  }

  /** `_handle_tap_and_type`: tap the field, clear it when asked, then type. A failed tap stops
      before typing; the clearing keys' own results are ignored. */
  function TapAndTypePlan(respond: Responder, params: Json, cache: Option<(int, int)>, n: nat): (r: Outcome)
    ensures Continues(r)
  {
    if !params.JObject? then Outcome([], cache, Err(AttributeError))
    else
      var text := GetOr(params, "text", JString(""));
      if !Truthy(text) then Outcome([], cache, Ok(Failed("缺少输入文本")))
      else TapAndTypeAt(respond, GetOr(params, "element", Centre), text, Truthy(GetOr(params, "clear", JBool(false))), cache, n)
  }

  /** `_handle_tap_and_type` once the text is known to be present: the coordinates, then the
      tap and the typing. */
  function TapAndTypeAt(respond: Responder, element: Json, text: Json, clear: bool, cache: Option<(int, int)>, n: nat): (r: Outcome)
    ensures Continues(r)
  {
    var pre := Looked(cache);
    var seen := Some(SizeSeen(cache, respond, n));
    match CoordsAt(element, cache, respond, n)
    case Err(e) => Outcome(pre, seen, Err(e))
    case Ok(p) =>
      var steps := TapFillSteps(respond, text, clear, p.0, p.1, n + |pre|);
      Outcome(pre + steps.0, seen, Ok(steps.1))
  }

  /** The part of `_handle_tap_and_type` after the coordinates, from the n-th command on: the
      tap, and only if it succeeded the clearing keys and the text. */
  function TapFillSteps(respond: Responder, text: Json, clear: bool, x: int, y: int, n: nat): (r: (seq<Command>, ActionResult))
    ensures !r.1.shouldFinish
    ensures |r.0| >= 1 && r.0[0] == InputTap(x, y)
    ensures !Succeeds(respond, n, InputTap(x, y)) ==> r == ([InputTap(x, y)], Failed("点击输入框失败"))
  {
    var tap := InputTap(x, y);
    if !Succeeds(respond, n, tap) then ([tap], Failed("点击输入框失败"))
    else
      var fill := FillSteps(respond, text, clear, x, y, n + 1);
      ([tap] + fill.0, fill.1)
  }

  /** The part of `_handle_tap_and_type` after a successful tap at (x, y), from the n-th
      command on: the optional clearing keys, then the text. */
  function FillSteps(respond: Responder, text: Json, clear: bool, x: int, y: int, n: nat): (r: (seq<Command>, ActionResult))
    ensures !r.1.shouldFinish
  {
    var clearing := Clearing(clear);
    var input := InputSteps(respond, text, n + |clearing|);
    (clearing + input.0, FillReport(input.1, text, x, y))
  }

  /** The clearing keys when `clear` is set, nothing otherwise. */
  function Clearing(clear: bool): seq<Command> {
    if clear then ClearKeys() else []
  }

  /** The result of `_handle_tap_and_type` once the text was sent at (x, y). */
  function FillReport(ok: bool, text: Json, x: int, y: int): (r: ActionResult)
    requires ok ==> text.JString?
    ensures !r.shouldFinish && r.success == ok
  {
    if ok then Succeeded("点击" + Pair(x, y) + "并输入: " + Prefix(text.s, 20) + "...") else Failed("输入文本失败")
  }

  /** `_find_package_by_name` from the n-th command on: the static table, else one package
      listing searched with the name's keywords. A list or dict cannot be looked up in the
      table; any other failure of the search is caught and means "not found". */
  function FindPackageSteps(respond: Responder, appName: Json, n: nat): (r: (seq<Command>, Result<Option<string>, PyError>))
    ensures |r.0| <= 1
    ensures appName.JString? && AppPackage(appName.s).Some? ==> r == ([], Ok(AppPackage(appName.s)))
  {
    match appName
    case JArray(_) => ([], Err(TypeError))
    case JObject(_) => ([], Err(TypeError))
    case JString(s) =>
      if AppPackage(s).Some? then ([], Ok(AppPackage(s)))
      else
        var reply := AnswerAt(respond, n, ListThirdPartyPackages);
        ([ListThirdPartyPackages], Ok(if reply.Raised? then None else FirstPackage(Packages(reply.text), Keywords(s))))
    case _ => ([ListThirdPartyPackages], Ok(None))
  }

  /** The end of `_handle_launch`, once the package is settled. */
  function LaunchWith(codec: Codec, respond: Responder, appName: Json, package: Json, cache: Option<(int, int)>,
                      n: nat): (r: Outcome)
    ensures Continues(r)
  {
    if !Truthy(package) then Outcome([], cache, Ok(Failed("缺少 app_name 或 package 参数")))
    else
      var name := PyStr(codec, package);
      var steps := LaunchSteps(respond, name, n);
      Outcome(steps.0, cache, Ok(LaunchReport(codec, appName, name, steps.1)))
  }

  /** The launch message: the package, after the app name when one was given. */
  function LaunchReport(codec: Codec, appName: Json, name: string, ok: bool): (r: ActionResult)
    ensures !r.shouldFinish && r.success == ok
  {
    var display := if Truthy(appName) then PyStr(codec, appName) + " (" + name + ")" else name;
    Report(ok, "启动: " + display, "启动失败: " + display)
  }

  /** `_handle_launch`: a truthy `app_name` wins over `package`. */
  function LaunchPlan(codec: Codec, respond: Responder, params: Json, cache: Option<(int, int)>, n: nat): (r: Outcome)
    ensures Continues(r)
  {
    if !params.JObject? then Outcome([], cache, Err(AttributeError))
    else
      var appName := GetOr(params, "app_name", JString(""));
      var package := GetOr(params, "package", JString(""));
      if Truthy(appName) then AfterLookup(codec, respond, appName, FindPackageSteps(respond, appName, n), cache, n)
      else LaunchWith(codec, respond, appName, package, cache, n)
  }

  /** `_handle_launch` once `_find_package_by_name` has sent `steps.0` and answered `steps.1`:
      a package it found is launched with the commands that follow the lookup's own. */
  function AfterLookup(codec: Codec, respond: Responder, appName: Json, steps: (seq<Command>, Result<Option<string>, PyError>),
                       cache: Option<(int, int)>, n: nat): (r: Outcome)
    ensures Continues(r)
  {
    match steps.1
    case Err(e) => Outcome(steps.0, cache, Err(e))
    case Ok(None) => Outcome(steps.0, cache, Ok(Failed("找不到应用: " + PyStr(codec, appName))))
    case Ok(Some(p)) =>
      var later := LaunchWith(codec, respond, appName, JString(p), cache, n + |steps.0|);
      Outcome(steps.0 + later.commands, later.cache, later.result)
  }

  /** `_handle_key_press`: the key name is looked up lower-cased; a non-string key has no
      `.lower()`. */
  function KeyPressPlan(respond: Responder, params: Json, cache: Option<(int, int)>, n: nat): (r: Outcome)
    ensures Continues(r)
  {
    if !params.JObject? then Outcome([], cache, Err(AttributeError))
    else
      var key := GetOr(params, "key", JString(""));
      if !Truthy(key) then Outcome([], cache, Ok(Failed("缺少 key 参数")))
      else if !key.JString? then Outcome([], cache, Err(AttributeError))
      else KeyPressNamed(respond, key.s, cache, n)
  }

  /** `_handle_key_press` for a key given by name: the name is looked up without regard to
      case, and the message keeps it as given. */
  function KeyPressNamed(respond: Responder, key: string, cache: Option<(int, int)>, n: nat): (r: Outcome)
    ensures Continues(r)
  {
    match KeyCode(key)
    case None => Outcome([], cache, Ok(Failed("未知按键: " + key)))
    case Some(code) =>
      var c := KeyEvent(code);
      Outcome([c], cache, Ok(Report(Succeeds(respond, n, c), "按键: " + key, "按键失败: " + key)))
  }

  /** `_handle_back` and `_handle_home` ignore their parameters. */
  function KeyPlan(respond: Responder, code: int, success: string, failure: string, cache: Option<(int, int)>, n: nat): (r: Outcome)
    ensures Continues(r)
  {
    Outcome([KeyEvent(code)], cache, Ok(Report(Succeeds(respond, n, KeyEvent(code)), success, failure)))
  }

  /** `_handle_wait`: no device command; the sleep itself is not modelled. */
  function WaitResult(codec: Codec, params: Json): (r: Result<ActionResult, PyError>)
    ensures r.Ok? ==> !r.value.shouldFinish
  {
    if !params.JObject? then Err(AttributeError)
    else match WaitSeconds(GetOr(params, "seconds", JInt(5)))
      case Err(e) => Err(e)
      case Ok(seconds) => Ok(Succeeded("等待 " + PyStr(codec, seconds) + " 秒"))
  }

  /** `_handle_long_press` */
  function LongPressPlan(respond: Responder, params: Json, cache: Option<(int, int)>, n: nat): (r: Outcome)
    ensures Continues(r)
  {
    if !params.JObject? then Outcome([], cache, Err(AttributeError))
    else
      var duration := GetOr(params, "duration", JInt(1000));
      var pre := Looked(cache);
      var seen := Some(SizeSeen(cache, respond, n));
      match CoordsAt(GetOr(params, "element", Centre), cache, respond, n)
      case Err(e) => Outcome(pre, seen, Err(e))
      case Ok(p) =>
        var c := InputSwipe(p.0, p.1, p.0, p.1, duration);
        Outcome(pre + [c], seen, Ok(Report(Succeeds(respond, n + |pre|, c), "长按 " + Point(p.0, p.1), "长按失败")))
  }

  /** `_handle_double_tap`: `double_tap` reports success whatever its taps report. */
  function DoubleTapPlan(respond: Responder, params: Json, cache: Option<(int, int)>, n: nat): (r: Outcome)
    ensures Continues(r)
  {
    if !params.JObject? then Outcome([], cache, Err(AttributeError))
    else
      var pre := Looked(cache);
      var seen := Some(SizeSeen(cache, respond, n));
      match CoordsAt(GetOr(params, "element", Centre), cache, respond, n)
      case Err(e) => Outcome(pre, seen, Err(e))
      case Ok(p) => Outcome(pre + [InputTap(p.0, p.1), InputTap(p.0, p.1)], seen, Ok(Succeeded("双击 " + Point(p.0, p.1))))
  }

  /** `_handle_finish`: the message is passed on as it is. */
  function FinishResult(params: Json): Result<ActionResult, PyError> {
    if !params.JObject? then Err(AttributeError)
    else Ok(ActionResult(true, true, GetOr(params, "message", JString("任务完成"))))
  }

  /** `_handle_pause` */
  function PauseResult(codec: Codec, params: Json): Result<ActionResult, PyError> {
    if !params.JObject? then Err(AttributeError)
    else Ok(ActionResult(true, true, JString("[暂停] " + PyStr(codec, GetOr(params, "message", JString("等待用户操作"))))))
  }

  /** The handler table of `ActionHandler`: one handler per kind. Only `finish` and `pause`
      end the task, and they always do when their parameters are a dict; waiting, finishing
      and pausing never touch the device; parameters that are not a dict make every handler
      raise before it sends anything, except `Back` and `Home`, which never look at them. */
  function HandlePlan(codec: Codec, respond: Responder, kind: ActionType, params: Json, cache: Option<(int, int)>, n: nat): (r: Outcome)
    ensures (r.result.Ok? && r.result.value.shouldFinish) <==> ((kind == Finish || kind == Pause) && params.JObject?)
    ensures kind == Wait || kind == Finish || kind == Pause ==> r.commands == [] && r.cache == cache
    ensures !params.JObject? && kind != Back && kind != Home ==> r == Outcome([], cache, Err(AttributeError))
  {
    match kind
    case Tap => TapPlan(codec, respond, params, cache, n)
    case Swipe => SwipePlan(respond, params, cache, n)
    case Drag => DragPlan(codec, respond, params, cache, n)
    case Type => TypePlan(respond, params, cache, n)
    case TapAndType => TapAndTypePlan(respond, params, cache, n)
    case Launch => LaunchPlan(codec, respond, params, cache, n)
    case KeyPress => KeyPressPlan(respond, params, cache, n)
    case Back => KeyPlan(respond, KeyBack, "返回", "返回失败", cache, n)
    case Home => KeyPlan(respond, KeyHome, "回到桌面", "回到桌面失败", cache, n)
    case Wait => Outcome([], cache, WaitResult(codec, params))
    case LongPress => LongPressPlan(respond, params, cache, n)
    case DoubleTap => DoubleTapPlan(respond, params, cache, n)
    case Finish => Outcome([], cache, FinishResult(params))
    case Pause => Outcome([], cache, PauseResult(codec, params))
  }

  /** `execute`: parse the directive, then hand its parameters to the kind's handler. */
  function ExecutePlan(codec: Codec, respond: Responder, actionJson: string, cache: Option<(int, int)>, n: nat): (r: Outcome)
    ensures ParseDirective(codec, actionJson).Err? ==> r == Outcome([], cache, Err(ParseDirective(codec, actionJson).error))
    ensures ParseDirective(codec, actionJson).Ok? && ParseDirective(codec, actionJson).value.Rejected? ==>
              r == Outcome([], cache, Ok(ParseDirective(codec, actionJson).value.result))
  {
    match ParseDirective(codec, actionJson)
    case Err(e) => Outcome([], cache, Err(e))
    case Ok(Rejected(result)) => Outcome([], cache, Ok(result))
    case Ok(Dispatch(kind, params)) => HandlePlan(codec, respond, kind, params, cache, n)
  }

  // ---------------------------------------------------------------- properties of the plans

  /** A tap without an element lands on the centre of the (cached) screen. */
  lemma TapCentre(codec: Codec, respond: Responder, w: nat, h: nat, n: nat)
    ensures var r := TapPlan(codec, respond, JObject([]), Some((w, h)), n);
      && r.commands == [InputTap(w / 2, h / 2)]
      && r.cache == Some((w, h))
      && r.result == Ok(Report(Succeeds(respond, n, InputTap(w / 2, h / 2)), "点击 " + Point(w / 2, h / 2), "点击失败"))
  {
    CentreCoords(w, h);
  }

  /** With nothing cached the screen size is read once, before the tap, and kept. */
  lemma TapReadsSizeFirst(codec: Codec, respond: Responder, params: Json, n: nat)
    requires params.JObject?
    ensures var r := TapPlan(codec, respond, params, None, n);
      && |r.commands| >= 1 && r.commands[0] == WmSize
      && r.cache == Some(ParseWmSize(AnswerAt(respond, n, WmSize)))
  {
  }

  /** A swipe without an element goes up. */
  lemma SwipeDefaultsUp(respond: Responder, w: int, h: int, n: nat)
    ensures var (x1, y1, x2, y2) := SwipeUpPath(w, h, 50);
      SwipePlan(respond, JObject([]), Some((w, h)), n).commands == [InputSwipe(x1, y1, x2, y2, SwipeDuration)]
  {
    assert GetOr(JObject([]), "direction", JString("up")) == JString("up");
  }

  /** An unknown direction fails without touching the device. */
  lemma SwipeUnknownDirection(respond: Responder, direction: string, cache: Option<(int, int)>, n: nat)
    requires forall dir: Direction :: direction != DirectionName(dir)
    ensures SwipePlan(respond, JObject([("direction", JString(direction))]), cache, n) == Outcome([], cache, Ok(Failed("滑动失败")))
  {
    var params := JObject([("direction", JString(direction))]);
    assert GetOr(params, "element", JNull) == JNull;
    assert GetOr(params, "direction", JString("up")) == JString(direction);
  }

  /** `Type` without text fails before touching the device. */
  lemma TypeNeedsText(respond: Responder, params: Json, cache: Option<(int, int)>, n: nat)
    requires params.JObject? && !HasKey(params.fields, "text")
    ensures TypePlan(respond, params, cache, n) == Outcome([], cache, Ok(Failed("缺少输入文本")))
    ensures TapAndTypePlan(respond, params, cache, n) == Outcome([], cache, Ok(Failed("缺少输入文本")))
  {
  }

  /** Clearing sends the end key and fifty deletions between the tap and the text. */
  lemma TapAndTypeClears(respond: Responder, params: Json, w: nat, h: nat, n: nat)
    requires params.JObject? && Truthy(GetOr(params, "text", JString(""))) && GetOr(params, "text", JString("")).JString?
    requires !HasKey(params.fields, "element") && Truthy(GetOr(params, "clear", JBool(false)))
    requires Succeeds(respond, n, InputTap(w / 2, h / 2))
    ensures var r := TapAndTypePlan(respond, params, Some((w, h)), n);
      && |r.commands| >= 2 + ClearCount
      && r.commands[..2 + ClearCount] == [InputTap(w / 2, h / 2)] + ClearKeys()
      && r.commands[2 + ClearCount] == ImeBroadcast(GetOr(params, "text", JString("")).s)
  {
    var text := GetOr(params, "text", JString(""));
    var input := InputSteps(respond, text, n + 1 + |ClearKeys()|);
    TapAndTypeClearsCommands(respond, params, w, h, n);
    var head := [InputTap(w / 2, h / 2)] + ClearKeys();
    assert |head| == 2 + ClearCount;
    assert (head + input.0)[..|head|] == head;
  }

  lemma TapAndTypeClearsCommands(respond: Responder, params: Json, w: nat, h: nat, n: nat)
    requires params.JObject? && Truthy(GetOr(params, "text", JString("")))
    requires !HasKey(params.fields, "element") && Truthy(GetOr(params, "clear", JBool(false)))
    requires Succeeds(respond, n, InputTap(w / 2, h / 2))
    ensures TapAndTypePlan(respond, params, Some((w, h)), n).commands
            == ([InputTap(w / 2, h / 2)] + ClearKeys()) + InputSteps(respond, GetOr(params, "text", JString("")), n + 1 + |ClearKeys()|).0
  {
    var text := GetOr(params, "text", JString(""));
    TapAndTypeOnCentre(respond, params, w, h, n);
    TapFillTapped(respond, text, true, w / 2, h / 2, n);
    FillClears(respond, text, w / 2, h / 2, n + 1);
    AppendAssoc([InputTap(w / 2, h / 2)], ClearKeys(), InputSteps(respond, text, n + 1 + |ClearKeys()|).0);
  }

  /** After a successful tap, the rest of tap-and-type is the fill. */
  lemma TapFillTapped(respond: Responder, text: Json, clear: bool, x: int, y: int, n: nat)
    requires Succeeds(respond, n, InputTap(x, y))
    ensures var fill := FillSteps(respond, text, clear, x, y, n + 1);
            TapFillSteps(respond, text, clear, x, y, n) == ([InputTap(x, y)] + fill.0, fill.1)
  {
  }

  /** With `clear`, the fill is the clearing keys followed by the typing. */
  lemma FillClears(respond: Responder, text: Json, x: int, y: int, n: nat)
    ensures FillSteps(respond, text, true, x, y, n).0 == ClearKeys() + InputSteps(respond, text, n + |ClearKeys()|).0
  {
  }

  /** Without an element, tap-and-type works on the centre of a known screen. */
  lemma TapAndTypeOnCentre(respond: Responder, params: Json, w: nat, h: nat, n: nat)
    requires params.JObject? && Truthy(GetOr(params, "text", JString(""))) && !HasKey(params.fields, "element")
    ensures var steps := TapFillSteps(respond, GetOr(params, "text", JString("")), Truthy(GetOr(params, "clear", JBool(false))), w / 2, h / 2, n);
            TapAndTypePlan(respond, params, Some((w, h)), n) == Outcome(steps.0, Some((w, h)), Ok(steps.1))
  {
    CentreCoords(w, h);
    var text := GetOr(params, "text", JString(""));
    var clear := Truthy(GetOr(params, "clear", JBool(false)));
    assert TapAndTypePlan(respond, params, Some((w, h)), n) == TapAndTypeAt(respond, Centre, text, clear, Some((w, h)), n);
    assert Looked(Some((w, h))) == [];
  }

  /** A failed tap on the field stops before any key or text is sent. */
  lemma TapAndTypeStopsOnFailedTap(respond: Responder, params: Json, w: nat, h: nat, n: nat)
    requires params.JObject? && Truthy(GetOr(params, "text", JString(""))) && !HasKey(params.fields, "element")
    requires !Succeeds(respond, n, InputTap(w / 2, h / 2))
    ensures TapAndTypePlan(respond, params, Some((w, h)), n)
            == Outcome([InputTap(w / 2, h / 2)], Some((w, h)), Ok(Failed("点击输入框失败")))
  {
    TapAndTypeOnCentre(respond, params, w, h, n);
  }

  /** An application in the table is launched by its package without asking the device for
      its package list. */
  lemma LaunchFromTable(codec: Codec, respond: Responder, name: string, cache: Option<(int, int)>, n: nat)
    requires |name| > 0 && AppPackage(name).Some?
    ensures var package := AppPackage(name).value;
      var steps := LaunchSteps(respond, package, n);
      var display := name + " (" + package + ")";
      LaunchPlan(codec, respond, JObject([("app_name", JString(name))]), cache, n)
        == Outcome(steps.0, cache, Ok(Report(steps.1, "启动: " + display, "启动失败: " + display)))
  {
    var params := JObject([("app_name", JString(name))]);
    assert GetOr(params, "app_name", JString("")) == JString(name);
    var package := AppPackage(name).value;
    assert FindPackageSteps(respond, JString(name), n) == ([], Ok(Some(package)));
    FoundWithoutListing(codec, respond, JString(name), package, cache, n);
  }

  /** A package found without asking the device is launched as if it had been given. */
  lemma FoundWithoutListing(codec: Codec, respond: Responder, appName: Json, package: string, cache: Option<(int, int)>, n: nat)
    ensures AfterLookup(codec, respond, appName, ([], Ok(Some(package))), cache, n)
            == LaunchWith(codec, respond, appName, JString(package), cache, n)
  {
    var later := LaunchWith(codec, respond, appName, JString(package), cache, n);
    assert AfterLookup(codec, respond, appName, ([], Ok(Some(package))), cache, n) == Outcome([] + later.commands, later.cache, later.result);
    assert [] + later.commands == later.commands;
  }

  /** A name that neither the table nor the device knows is reported, after one listing. */
  lemma LaunchUnknownApp(codec: Codec, respond: Responder, name: string, cache: Option<(int, int)>, n: nat)
    requires |name| > 0 && AppPackage(name).None? && AnswerAt(respond, n, ListThirdPartyPackages).Raised?
    ensures LaunchPlan(codec, respond, JObject([("app_name", JString(name))]), cache, n)
            == Outcome([ListThirdPartyPackages], cache, Ok(Failed("找不到应用: " + name)))
  {
    var params := JObject([("app_name", JString(name))]);
    assert GetOr(params, "app_name", JString("")) == JString(name);
  }

  /** Without `app_name` and `package` nothing is launched. */
  lemma LaunchNeedsTarget(codec: Codec, respond: Responder, cache: Option<(int, int)>, n: nat)
    ensures LaunchPlan(codec, respond, JObject([]), cache, n) == Outcome([], cache, Ok(Failed("缺少 app_name 或 package 参数")))
  {
  }

  /** A double tap only fails by raising. */
  lemma DoubleTapSucceeds(respond: Responder, params: Json, cache: Option<(int, int)>, n: nat)
    ensures var r := DoubleTapPlan(respond, params, cache, n).result; r.Ok? ==> r.value.success
  {
  }

  /** Without `seconds` the handler waits five seconds. */
  lemma WaitReported(codec: Codec, params: Json)
    requires params.JObject? && !HasKey(params.fields, "seconds")
    ensures WaitResult(codec, params) == Ok(Succeeded("等待 5 秒"))
  {
    assert GetOr(params, "seconds", JInt(5)) == JInt(5);
    WaitDefault();
    assert NatToString(5) == "5";
    assert PyStr(codec, JInt(5)) == "5";
    assert "等待 " + "5" + " 秒" == "等待 5 秒";
  }

  /** A non-empty name given as `key` is looked up by name. */
  lemma KeyPressByName(respond: Responder, key: string, cache: Option<(int, int)>, n: nat)
    requires |key| > 0
    ensures KeyPressPlan(respond, JObject([("key", JString(key))]), cache, n) == KeyPressNamed(respond, key, cache, n)
  {
    var params := JObject([("key", JString(key))]);
    assert Keys(params.fields)[0] == "key";
    assert GetOr(params, "key", JString("")) == JString(key);
  }

  /** A known key name, in any case, presses its code once; the message keeps the name as given. */
  lemma KeyPressKnown(respond: Responder, key: string, cache: Option<(int, int)>, n: nat)
    requires |key| > 0 && KeyCode(key).Some?
    ensures var c := KeyEvent(KeyCode(key).value);
            KeyPressPlan(respond, JObject([("key", JString(key))]), cache, n)
            == Outcome([c], cache, Ok(Report(Succeeds(respond, n, c), "按键: " + key, "按键失败: " + key)))
  {
    KeyPressByName(respond, key, cache, n);
  }

  /** An unknown key name fails without touching the device. */
  lemma KeyPressUnknown(respond: Responder, key: string, cache: Option<(int, int)>, n: nat)
    requires |key| > 0 && KeyCode(key).None?
    ensures KeyPressPlan(respond, JObject([("key", JString(key))]), cache, n)
            == Outcome([], cache, Ok(Failed("未知按键: " + key)))
  {
    KeyPressByName(respond, key, cache, n);
  }

  /** The device's directional swipe for `dir`. */
  method SwipeAlong(device: Device, dir: Direction) returns (ok: bool)
    modifies device
    ensures device.screenSize == Some(SizeSeen(old(device.screenSize), device.respond, |old(device.log)|))
    ensures var c := SwipeCommand(DirectionPath(dir, device.screenSize.value.0, device.screenSize.value.1), SwipeDuration);
            device.log == old(device.log) + (Looked(old(device.screenSize)) + [c])
    ensures var c := SwipeCommand(DirectionPath(dir, device.screenSize.value.0, device.screenSize.value.1), SwipeDuration);
            ok == Succeeds(device.respond, |old(device.log)| + |Looked(old(device.screenSize))|, c)
  {
    match dir {
      case Up => ok := device.SwipeUp(50, SwipeDuration);
      case Down => ok := device.SwipeDown(50, SwipeDuration);
      case Left => ok := device.SwipeLeft(50, SwipeDuration);
      case Right => ok := device.SwipeRight(50, SwipeDuration);
    }
  }

  // ---------------------------------------------------------------- the handler

  class ActionHandler {
    const device: Device
    const codec: Codec

    constructor (device: Device, codec: Codec)
      ensures this.device == device && this.codec == codec
    {
      this.device := device;
      this.codec := codec;
    }

    /** `execute` */
    method Execute(actionJson: string) returns (r: Result<ActionResult, PyError>)
      modifies device
      ensures var p := ExecutePlan(codec, device.respond, actionJson, old(device.screenSize), |old(device.log)|);
              device.log == old(device.log) + p.commands && device.screenSize == p.cache && r == p.result
    {
      var directive := ParseDirective(codec, actionJson);
      if directive.Err? {
        return Err(directive.error);
      }
      match directive.value {
        case Rejected(result) =>
          r := Ok(result);
        case Dispatch(kind, params) =>
          r := Handle(kind, params);
      }
    }

    /** The dispatch through `_handlers`. */
    method Handle(kind: ActionType, params: Json) returns (r: Result<ActionResult, PyError>)
      modifies device
      ensures var p := HandlePlan(codec, device.respond, kind, params, old(device.screenSize), |old(device.log)|);
              device.log == old(device.log) + p.commands && device.screenSize == p.cache && r == p.result
    {
      match kind {
        case Tap => r := HandleTap(params);
        case Swipe => r := HandleSwipe(params);
        case Drag => r := HandleDrag(params);
        case Type => r := HandleType(params);
        case TapAndType => r := HandleTapAndType(params);
        case Launch => r := HandleLaunch(params);
        case KeyPress => r := HandleKeyPress(params);
        case Back => r := HandleBack();
        case Home => r := HandleHome();
        case Wait => r := HandleWait(params);
        case LongPress => r := HandleLongPress(params);
        case DoubleTap => r := HandleDoubleTap(params);
        case Finish => r := HandleFinish(params);
        case Pause => r := HandlePause(params);
      }
    }

    /** `_get_coords` */
    method GetCoords(element: Json) returns (r: Result<(int, int), PyError>)
      modifies device
      ensures r == CoordsAt(element, old(device.screenSize), device.respond, |old(device.log)|)
      ensures device.log == old(device.log) + Looked(old(device.screenSize))
      ensures device.screenSize == Some(SizeSeen(old(device.screenSize), device.respond, |old(device.log)|))
    {
      var size := device.ScreenSize();
      r := Coords(element, size.0, size.1);
    }

    method HandleTap(params: Json) returns (r: Result<ActionResult, PyError>)
      modifies device
      ensures var p := TapPlan(codec, device.respond, params, old(device.screenSize), |old(device.log)|);
              device.log == old(device.log) + p.commands && device.screenSize == p.cache && r == p.result
    {
      if !params.JObject? {
        return Err(AttributeError);
      }
      var coords := GetCoords(GetOr(params, "element", Centre));
      if coords.Err? {
        return Err(coords.error);
      }
      var p := coords.value;
      assert |device.log| == |old(device.log)| + |Looked(old(device.screenSize))|;
      ghost var steps := TapSteps(codec, device.respond, params, p.0, p.1, |device.log|);
      var result := TapAt(params, p.0, p.1);
      AppendAssoc(old(device.log), Looked(old(device.screenSize)), steps.0);
      r := Ok(result);
    }

    method TapAt(params: Json, x: int, y: int) returns (result: ActionResult)
      requires params.JObject?
      modifies device
      ensures var steps := TapSteps(codec, device.respond, params, x, y, |old(device.log)|);
              device.log == old(device.log) + steps.0 && result == steps.1
      ensures device.screenSize == old(device.screenSize)
    {
      if Truthy(GetOr(params, "long_press", JBool(false))) {
        var duration := GetOr(params, "duration", JInt(1000));
        var ok := device.LongPress(x, y, duration);
        result := Report(ok, "长按 " + Point(x, y) + " " + PyStr(codec, duration) + "ms", "长按失败");
      } else {
        var ok := device.Tap(x, y);
        result := Report(ok, "点击 " + Point(x, y), "点击失败");
      }
    }

    method HandleSwipe(params: Json) returns (r: Result<ActionResult, PyError>)
      modifies device
      ensures var p := SwipePlan(device.respond, params, old(device.screenSize), |old(device.log)|);
              device.log == old(device.log) + p.commands && device.screenSize == p.cache && r == p.result
    {
      if !params.JObject? {
        return Err(AttributeError);
      }
      var element := GetOr(params, "element", JNull);
      var direction := GetOr(params, "direction", JString("up"));
      if Truthy(element) && Len(element).None? {
        return Err(TypeError);
      }
      if Truthy(element) && Len(element).value >= 4 {
        var size := device.ScreenSize();
        var corners := Corners(element, size.0, size.1);
        if corners.Err? {
          return Err(corners.error);
        }
        var q := corners.value;
        var ok := device.Swipe(q.0, q.1, q.2, q.3, SwipeDuration);
        r := Ok(Report(ok, "滑动 " + Pair(q.0, q.1) + " -> " + Pair(q.2, q.3), "滑动失败"));
      } else {
        r := SwipeToward(direction);
      }
    }

    /** The directional half of `_handle_swipe`. */
    method SwipeToward(direction: Json) returns (r: Result<ActionResult, PyError>)
      modifies device
      ensures var p := DirectionPlan(device.respond, direction, old(device.screenSize), |old(device.log)|);
              device.log == old(device.log) + p.commands && device.screenSize == p.cache && r == p.result
    {
      var dir := DirectionOf(direction);
      if dir.None? {
        return Ok(Failed("滑动失败"));
      }
      r := SwipeKnown(direction);
    }

    /** A directional swipe whose direction is recognised. */
    method SwipeKnown(direction: Json) returns (r: Result<ActionResult, PyError>)
      requires DirectionOf(direction).Some?
      modifies device
      ensures var p := DirectionPlan(device.respond, direction, old(device.screenSize), |old(device.log)|);
              device.log == old(device.log) + p.commands && device.screenSize == p.cache && r == p.result
    {
      DirectionPlanSwipes(device.respond, direction, device.screenSize, |device.log|);
      var ok := SwipeAlong(device, DirectionOf(direction).value);
      r := Ok(Report(ok, "滑动 " + direction.s, "滑动失败"));
    }

    method HandleDrag(params: Json) returns (r: Result<ActionResult, PyError>)
      modifies device
      ensures var p := DragPlan(codec, device.respond, params, old(device.screenSize), |old(device.log)|);
              device.log == old(device.log) + p.commands && device.screenSize == p.cache && r == p.result
    {
      if !params.JObject? {
        return Err(AttributeError);
      }
      var start := GetOr(params, "start", Centre);
      var end := GetOr(params, "end", Centre);
      var duration := GetOr(params, "duration", JInt(1000));
      var from := GetCoords(start);
      if from.Err? {
        return Err(from.error);
      }
      var to := GetCoords(end);
      if to.Err? {
        return Err(to.error);
      }
      var p := from.value;
      var q := to.value;
      var ok := device.Swipe(p.0, p.1, q.0, q.1, duration);
      AppendAssoc(old(device.log), Looked(old(device.screenSize)), [InputSwipe(p.0, p.1, q.0, q.1, duration)]);
      r := Ok(Report(ok, "拖拽 " + Pair(p.0, p.1) + " -> " + Pair(q.0, q.1) + " " + PyStr(codec, duration) + "ms", "拖拽失败"));
    }

    /** `input_text_adbime(text) or input_text(text)` */
    method EnterText(text: Json) returns (ok: bool)
      modifies device
      ensures var input := InputSteps(device.respond, text, |old(device.log)|);
              device.log == old(device.log) + input.0 && ok == input.1
      ensures device.screenSize == old(device.screenSize)
    {
      if !text.JString? {
        return false;
      }
      ok := device.InputTextAdbIme(text.s);
      if !ok {
        ok := device.InputTextPlain(text.s);
      }
    }

    method HandleType(params: Json) returns (r: Result<ActionResult, PyError>)
      modifies device
      ensures var p := TypePlan(device.respond, params, old(device.screenSize), |old(device.log)|);
              device.log == old(device.log) + p.commands && device.screenSize == p.cache && r == p.result
    {
      if !params.JObject? {
        return Err(AttributeError);
      }
      var text := GetOr(params, "text", JString(""));
      if !Truthy(text) {
        return Ok(Failed("缺少输入文本"));
      }
      var ok := EnterText(text);
      r := Ok(if ok then Succeeded("输入: " + Prefix(text.s, 20) + "...") else Failed("输入失败"));
    }

    /** The clearing step of `_handle_tap_and_type`. */
    method ClearField()
      modifies device
      ensures device.log == old(device.log) + ClearKeys() && device.screenSize == old(device.screenSize)
    {
      var moved := device.PressKey(KeyMoveEnd);
      var i := 0;
      while i < ClearCount
        invariant 0 <= i <= ClearCount
        invariant device.log == old(device.log) + [KeyEvent(KeyMoveEnd)] + Repeat(KeyEvent(KeyDelete), i)
        invariant device.screenSize == old(device.screenSize)
      {
        var deleted := device.PressKey(KeyDelete);
        RepeatSnoc(KeyEvent(KeyDelete), i);
        i := i + 1;
      }
    }

    method HandleTapAndType(params: Json) returns (r: Result<ActionResult, PyError>)
      modifies device
      ensures var p := TapAndTypePlan(device.respond, params, old(device.screenSize), |old(device.log)|);
              device.log == old(device.log) + p.commands && device.screenSize == p.cache && r == p.result
    {
      if !params.JObject? {
        return Err(AttributeError);
      }
      var element := GetOr(params, "element", Centre);
      var text := GetOr(params, "text", JString(""));
      var clear := GetOr(params, "clear", JBool(false));
      if !Truthy(text) {
        return Ok(Failed("缺少输入文本"));
      }
      r := TapAndTypeOn(element, text, Truthy(clear));
    }

    method TapAndTypeOn(element: Json, text: Json, clear: bool) returns (r: Result<ActionResult, PyError>)
      modifies device
      ensures var p := TapAndTypeAt(device.respond, element, text, clear, old(device.screenSize), |old(device.log)|);
              device.log == old(device.log) + p.commands && device.screenSize == p.cache && r == p.result
    {
      var coords := GetCoords(element);
      if coords.Err? {
        return Err(coords.error);
      }
      var p := coords.value;
      assert |device.log| == |old(device.log)| + |Looked(old(device.screenSize))|;
      ghost var steps := TapFillSteps(device.respond, text, clear, p.0, p.1, |device.log|);
      var result := TapThenFill(text, clear, p.0, p.1);
      AppendAssoc(old(device.log), Looked(old(device.screenSize)), steps.0);
      r := Ok(result);
    }

    method TapThenFill(text: Json, clear: bool, x: int, y: int) returns (result: ActionResult)
      modifies device
      ensures var steps := TapFillSteps(device.respond, text, clear, x, y, |old(device.log)|);
              device.log == old(device.log) + steps.0 && result == steps.1
      ensures device.screenSize == old(device.screenSize)
    {
      ghost var n := |device.log|;
      var tapped := device.Tap(x, y);
      if !tapped {
        return Failed("点击输入框失败");
      }
      ghost var afterTap := device.log;
      assert |afterTap| == n + 1;
      TapFillTapped(device.respond, text, clear, x, y, n);
      ghost var fill := FillSteps(device.respond, text, clear, x, y, n + 1);
      result := FillField(text, clear, x, y);
      assert device.log == afterTap + fill.0 && result == fill.1;
      AppendAssoc(old(device.log), [InputTap(x, y)], fill.0);
    }

    method FillField(text: Json, clear: bool, x: int, y: int) returns (result: ActionResult)
      modifies device
      ensures var fill := FillSteps(device.respond, text, clear, x, y, |old(device.log)|);
              device.log == old(device.log) + fill.0 && result == fill.1
      ensures device.screenSize == old(device.screenSize)
    {
      ghost var clearing := Clearing(clear);
      if clear {
        ClearField();
      }
      assert device.log == old(device.log) + clearing;
      ghost var input := InputSteps(device.respond, text, |device.log|);
      var ok := EnterText(text);
      AppendAssoc(old(device.log), clearing, input.0);
      result := FillReport(ok, text, x, y);
    }

    /** `_find_package_by_name`, with `_search_package_on_device` and `_extract_keywords`. */
    method FindPackage(appName: Json) returns (r: Result<Option<string>, PyError>)
      modifies device
      ensures var steps := FindPackageSteps(device.respond, appName, |old(device.log)|);
              device.log == old(device.log) + steps.0 && r == steps.1
      ensures device.screenSize == old(device.screenSize)
    {
      if appName.JArray? || appName.JObject? {
        return Err(TypeError);
      }
      if appName.JString? && AppPackage(appName.s).Some? {
        return Ok(AppPackage(appName.s));
      }
      var reply := device.Shell(ListThirdPartyPackages);
      if reply.Raised? || !appName.JString? {
        return Ok(None);
      }
      var packages := ParsePackages(reply.text);
      var keywords := ExtractKeywords(appName.s);
      var found := MatchPackage(packages, keywords);
      r := Ok(found);
    }

    method HandleLaunch(params: Json) returns (r: Result<ActionResult, PyError>)
      modifies device
      ensures var p := LaunchPlan(codec, device.respond, params, old(device.screenSize), |old(device.log)|);
              device.log == old(device.log) + p.commands && device.screenSize == p.cache && r == p.result
    {
      if !params.JObject? {
        return Err(AttributeError);
      }
      var appName := GetOr(params, "app_name", JString(""));
      var package := GetOr(params, "package", JString(""));
      if !Truthy(appName) {
        r := StartPackage(appName, package);
        return;
      }
      ghost var steps := FindPackageSteps(device.respond, appName, |device.log|);
      var found := FindPackage(appName);
      r := AfterFound(appName, found, old(device.log), steps);
    }

    /** The rest of `_handle_launch` once the lookup, issued after the commands `before`, has
        sent `steps.0` and answered `found`. */
    method AfterFound(appName: Json, found: Result<Option<string>, PyError>, ghost before: seq<Command>,
                      ghost steps: (seq<Command>, Result<Option<string>, PyError>))
        returns (r: Result<ActionResult, PyError>)
      requires found == steps.1 && device.log == before + steps.0
      modifies device
      ensures var p := AfterLookup(codec, device.respond, appName, steps, old(device.screenSize), |before|);
              device.log == before + p.commands && device.screenSize == p.cache && r == p.result
    {
      if found.Err? {
        return Err(found.error);
      }
      if found.value.None? {
        return Ok(Failed("找不到应用: " + PyStr(codec, appName)));
      }
      r := LaunchFound(appName, found.value.value, before, steps);
    }

    /** `_handle_launch` once the lookup found a package. */
    method LaunchFound(appName: Json, package: string, ghost before: seq<Command>,
                       ghost steps: (seq<Command>, Result<Option<string>, PyError>))
        returns (r: Result<ActionResult, PyError>)
      requires steps.1 == Ok(Some(package)) && device.log == before + steps.0
      modifies device
      ensures var p := AfterLookup(codec, device.respond, appName, steps, old(device.screenSize), |before|);
              device.log == before + p.commands && device.screenSize == p.cache && r == p.result
    {
      ghost var lookedUp := device.log;
      ghost var cache := device.screenSize;
      r := StartPackage(appName, JString(package));
      ghost var later := LaunchWith(codec, device.respond, appName, JString(package), cache, |lookedUp|);
      assert AfterLookup(codec, device.respond, appName, steps, cache, |before|) == Outcome(steps.0 + later.commands, later.cache, later.result) by {
        assert |lookedUp| == |before| + |steps.0|;
      }
      AppendAssoc(before, steps.0, later.commands);
    }

    /** The end of `_handle_launch`, once the package is settled. */
    method StartPackage(appName: Json, package: Json) returns (r: Result<ActionResult, PyError>)
      modifies device
      ensures var p := LaunchWith(codec, device.respond, appName, package, old(device.screenSize), |old(device.log)|);
              device.log == old(device.log) + p.commands && device.screenSize == p.cache && r == p.result
    {
      if !Truthy(package) {
        return Ok(Failed("缺少 app_name 或 package 参数"));
      }
      var name := PyStr(codec, package);
      ghost var steps := LaunchSteps(device.respond, name, |device.log|);
      var ok := device.LaunchApp(name);
      assert device.log == old(device.log) + steps.0 && ok == steps.1;
      r := Ok(LaunchReport(codec, appName, name, ok));
    }

    method HandleKeyPress(params: Json) returns (r: Result<ActionResult, PyError>)
      modifies device
      ensures var p := KeyPressPlan(device.respond, params, old(device.screenSize), |old(device.log)|);
              device.log == old(device.log) + p.commands && device.screenSize == p.cache && r == p.result
    {
      if !params.JObject? {
        return Err(AttributeError);
      }
      var key := GetOr(params, "key", JString(""));
      if !Truthy(key) {
        return Ok(Failed("缺少 key 参数"));
      }
      if !key.JString? {
        return Err(AttributeError);
      }
      r := PressNamed(key.s);
    }

    method PressNamed(key: string) returns (r: Result<ActionResult, PyError>)
      modifies device
      ensures var p := KeyPressNamed(device.respond, key, old(device.screenSize), |old(device.log)|);
              device.log == old(device.log) + p.commands && device.screenSize == p.cache && r == p.result
    {
      var code := KeyCode(key);
      if code.None? {
        return Ok(Failed("未知按键: " + key));
      }
      var ok := device.PressKey(code.value);
      r := Ok(Report(ok, "按键: " + key, "按键失败: " + key));
    }

    method HandleBack() returns (r: Result<ActionResult, PyError>)
      modifies device
      ensures var p := KeyPlan(device.respond, KeyBack, "返回", "返回失败", old(device.screenSize), |old(device.log)|);
              device.log == old(device.log) + p.commands && device.screenSize == p.cache && r == p.result
    {
      var ok := device.PressBack();
      r := Ok(Report(ok, "返回", "返回失败"));
    }

    method HandleHome() returns (r: Result<ActionResult, PyError>)
      modifies device
      ensures var p := KeyPlan(device.respond, KeyHome, "回到桌面", "回到桌面失败", old(device.screenSize), |old(device.log)|);
              device.log == old(device.log) + p.commands && device.screenSize == p.cache && r == p.result
    {
      var ok := device.PressHome();
      r := Ok(Report(ok, "回到桌面", "回到桌面失败"));
    }

    method HandleWait(params: Json) returns (r: Result<ActionResult, PyError>)
      ensures r == WaitResult(codec, params)
    {
      if !params.JObject? {
        return Err(AttributeError);
      }
      var seconds := WaitSeconds(GetOr(params, "seconds", JInt(5)));
      if seconds.Err? {
        return Err(seconds.error);
      }
      r := Ok(Succeeded("等待 " + PyStr(codec, seconds.value) + " 秒"));
    }

    method HandleLongPress(params: Json) returns (r: Result<ActionResult, PyError>)
      modifies device
      ensures var p := LongPressPlan(device.respond, params, old(device.screenSize), |old(device.log)|);
              device.log == old(device.log) + p.commands && device.screenSize == p.cache && r == p.result
    {
      if !params.JObject? {
        return Err(AttributeError);
      }
      var element := GetOr(params, "element", Centre);
      var duration := GetOr(params, "duration", JInt(1000));
      var coords := GetCoords(element);
      if coords.Err? {
        return Err(coords.error);
      }
      var p := coords.value;
      assert |device.log| == |old(device.log)| + |Looked(old(device.screenSize))|;
      var ok := device.LongPress(p.0, p.1, duration);
      AppendAssoc(old(device.log), Looked(old(device.screenSize)), [InputSwipe(p.0, p.1, p.0, p.1, duration)]);
      r := Ok(Report(ok, "长按 " + Point(p.0, p.1), "长按失败"));
    }

    method HandleDoubleTap(params: Json) returns (r: Result<ActionResult, PyError>)
      modifies device
      ensures var p := DoubleTapPlan(device.respond, params, old(device.screenSize), |old(device.log)|);
              device.log == old(device.log) + p.commands && device.screenSize == p.cache && r == p.result
    {
      if !params.JObject? {
        return Err(AttributeError);
      }
      var element := GetOr(params, "element", Centre);
      var coords := GetCoords(element);
      if coords.Err? {
        return Err(coords.error);
      }
      var p := coords.value;
      assert |device.log| == |old(device.log)| + |Looked(old(device.screenSize))|;
      var ok := device.DoubleTap(p.0, p.1);
      AppendAssoc(old(device.log), Looked(old(device.screenSize)), [InputTap(p.0, p.1), InputTap(p.0, p.1)]);
      r := Ok(Report(ok, "双击 " + Point(p.0, p.1), "双击失败"));
    }

    method HandleFinish(params: Json) returns (r: Result<ActionResult, PyError>)
      ensures r == FinishResult(params)
    {
      if !params.JObject? {
        return Err(AttributeError);
      }
      r := Ok(ActionResult(true, true, GetOr(params, "message", JString("任务完成"))));
    }

    method HandlePause(params: Json) returns (r: Result<ActionResult, PyError>)
      ensures r == PauseResult(codec, params)
    {
      if !params.JObject? {
        return Err(AttributeError);
      }
      r := Ok(ActionResult(true, true, JString("[暂停] " + PyStr(codec, GetOr(params, "message", JString("等待用户操作"))))));
    }
  }
}
