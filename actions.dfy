/** The pure half of the action interpreter: the action kinds and their wire names, the
    parse of one directive, coordinate scaling, the `Wait` clamp, the key table, the static
    application table, keyword extraction and the package search. */
module Actions {
  import opened Wrappers
  import opened Strings
  import opened Dicts
  import opened JsonValues

  datatype ActionType =
    | Tap | Swipe | Drag | Type | TapAndType | Launch | KeyPress
    | Back | Home | Wait | LongPress | DoubleTap | Finish | Pause

  /** The enum's string values, as the model writes them in the `action` field. */
  function ActionValue(t: ActionType): string {
    match t
    case Tap => "Tap"
    case Swipe => "Swipe"
    case Drag => "Drag"
    case Type => "Type"
    case TapAndType => "TapAndType"
    case Launch => "Launch"
    case KeyPress => "KeyPress"
    case Back => "Back"
    case Home => "Home"
    case Wait => "Wait"
    case LongPress => "Long Press"
    case DoubleTap => "Double Tap"
    case Finish => "finish"
    case Pause => "pause"
  }

  /** `ActionType(value)`: exact, case-sensitive match on the value; `None` for the
      `ValueError` raised on anything else. */
  function ParseActionType(value: Json): (r: Option<ActionType>)
    ensures r.Some? ==> value == JString(ActionValue(r.value))
  {
    match value
    case JString(s) =>
      if s == ActionValue(Tap) then Some(Tap)
      else if s == ActionValue(Swipe) then Some(Swipe)
      else if s == ActionValue(Drag) then Some(Drag)
      else if s == ActionValue(Type) then Some(Type)
      else if s == ActionValue(TapAndType) then Some(TapAndType)
      else if s == ActionValue(Launch) then Some(Launch)
      else if s == ActionValue(KeyPress) then Some(KeyPress)
      else if s == ActionValue(Back) then Some(Back)
      else if s == ActionValue(Home) then Some(Home)
      else if s == ActionValue(Wait) then Some(Wait)
      else if s == ActionValue(LongPress) then Some(LongPress)
      else if s == ActionValue(DoubleTap) then Some(DoubleTap)
      else if s == ActionValue(Finish) then Some(Finish)
      else if s == ActionValue(Pause) then Some(Pause)
      else None
    case _ => None
  }

  /** Every kind is recognised by its own value, so the parse is exactly the inverse of
      `ActionValue`. */
  lemma ActionTypeRoundTrip(t: ActionType)
    ensures ParseActionType(JString(ActionValue(t))) == Some(t)
  {
  }

  /** Case matters: "Finish" and "long press" are not action kinds. */
  lemma ActionTypeCaseSensitive()
    ensures ParseActionType(JString("Finish")).None?
    ensures ParseActionType(JString("long press")).None?
    ensures ParseActionType(JString("LongPress")).None?
  {
    forall t: ActionType
      ensures ActionValue(t) != "Finish" && ActionValue(t) != "long press" && ActionValue(t) != "LongPress"
    {
      assert ActionValue(Finish)[0] == 'f' && ActionValue(LongPress)[0] == 'L';
    }
  }

  datatype ActionResult = ActionResult(success: bool, shouldFinish: bool, message: Json)

  /** A failed, non-finishing result with the given message. */
  function Failed(message: string): ActionResult {
    ActionResult(false, false, JString(message))
  }

  function Succeeded(message: string): ActionResult {
    ActionResult(true, false, JString(message))
  }

  /** What `execute` does with the directive before any handler runs: a result at once, or
      the kind to dispatch on and its parameters. */
  datatype Directive = Rejected(result: ActionResult) | Dispatch(kind: ActionType, params: Json)

  /** The first half of `execute`. Malformed JSON, a missing or falsy `action` and an
      unknown kind are answered with a failed result; decoded JSON that is not an object
      has no `.get` and raises. */
  function ParseDirective(codec: Codec, actionJson: string): (r: Result<Directive, PyError>)
    ensures r.Ok? && r.value.Rejected? ==> !r.value.result.success && !r.value.result.shouldFinish
    ensures codec.decode(actionJson).None? ==> r == Ok(Rejected(Failed("无效的动作 JSON: " + Prefix(actionJson, 100))))
    ensures r.Ok? && r.value.Dispatch? ==>
      var data := codec.decode(actionJson).value;
      data.JObject? && ParseActionType(GetOr(data, "action", JNull)) == Some(r.value.kind)
  {
    match codec.decode(actionJson)
    case None => Ok(Rejected(Failed("无效的动作 JSON: " + Prefix(actionJson, 100))))
    case Some(data) =>
      if !data.JObject? then Err(AttributeError)
      else
        var actionType := GetOr(data, "action", JNull);
        if !Truthy(actionType) then Ok(Rejected(Failed("缺少 action 字段")))
        else match ParseActionType(actionType)
          case None => Ok(Rejected(Failed("未知动作类型: " + PyStr(codec, actionType))))
          case Some(kind) => Ok(Dispatch(kind, GetOr(data, "params", JObject([]))))
  }

  /** A directive naming a known kind dispatches to it, with `params` or an empty dict. */
  lemma DispatchKnown(codec: Codec, actionJson: string, fields: seq<(string, Json)>, t: ActionType)
    requires codec.decode(actionJson) == Some(JObject(fields))
    requires Lookup(fields, "action") == Some(JString(ActionValue(t)))
    ensures ParseDirective(codec, actionJson) == Ok(Dispatch(t, Lookup(fields, "params").GetOr(JObject([]))))
  {
    ActionTypeRoundTrip(t);
  }

  /** A missing or empty `action` never reaches a handler. */
  lemma RejectMissingAction(codec: Codec, actionJson: string, fields: seq<(string, Json)>)
    requires codec.decode(actionJson) == Some(JObject(fields))
    requires Lookup(fields, "action").None? || Lookup(fields, "action") == Some(JString(""))
    ensures ParseDirective(codec, actionJson) == Ok(Rejected(Failed("缺少 action 字段")))
  {
  }

  /** An `action` string that names no kind is reported with its text. */
  lemma RejectUnknownAction(codec: Codec, actionJson: string, fields: seq<(string, Json)>, name: string)
    requires codec.decode(actionJson) == Some(JObject(fields))
    requires Lookup(fields, "action") == Some(JString(name)) && |name| > 0
    requires forall t: ActionType :: ActionValue(t) != name
    ensures ParseDirective(codec, actionJson) == Ok(Rejected(Failed("未知动作类型: " + name)))
  {
  }

  // ---------------------------------------------------------------- coordinates

  /** `[500, 500]`, the default `element`, `start` and `end`. */
  const Centre: Json := JArray([JInt(500), JInt(500)])

  /** `element[idx]` on a decoded value: lists index, strings give one character, dicts look
      up an integer key no JSON object has, and numbers, booleans and `None` are not
      subscriptable. */
  function Item(element: Json, idx: nat): (r: Result<Json, PyError>)
    ensures element.JArray? && idx < |element.items| ==> r == Ok(element.items[idx])
  {
    match element
    case JArray(items) => if idx < |items| then Ok(items[idx]) else Err(IndexError)
    case JString(s) => if idx < |s| then Ok(JString([s[idx]])) else Err(IndexError)
    case JObject(_) => Err(KeyError)
    case _ => Err(TypeError)
  }

  /** `int(v / 1000 * size)` for a numeric `v`; anything else cannot be divided. */
  function Scale(v: Json, size: int): (r: Result<int, PyError>)
    ensures r.Ok? <==> IsNumber(v)
  {
    match AsReal(v)
    case None => Err(TypeError)
    case Some(e) => Ok(Trunc(e / 1000.0 * size as real))
  }

  /** `int(element[idx] / 1000 * size)` */
  function Coord(element: Json, idx: nat, size: int): Result<int, PyError> {
    match Item(element, idx)
    case Err(e) => Err(e)
    case Ok(v) => Scale(v, size)
  }

  /** `_get_coords`: x from `element[0]` and the width, then y from `element[1]` and the
      height; the first failure is the one raised. */
  function Coords(element: Json, width: int, height: int): Result<(int, int), PyError> {
    match Coord(element, 0, width)
    case Err(e) => Err(e)
    case Ok(x) =>
      match Coord(element, 1, height)
      case Err(e) => Err(e)
      case Ok(y) => Ok((x, y))
  }

  /** `len(element)`; numbers, booleans and `None` have no length. */
  function Len(element: Json): Option<nat> {
    match element
    case JArray(items) => Some(|items|)
    case JString(s) => Some(|s|)
    case JObject(fields) => Some(|fields|)
    case _ => None
  }

  /** The four-coordinate form of `_handle_swipe`: x1, y1, x2, y2 from `element[0..4]`,
      converted in that order. */
  function Corners(element: Json, width: int, height: int): Result<(int, int, int, int), PyError> {
    match Coord(element, 0, width)
    case Err(e) => Err(e)
    case Ok(x1) =>
      match Coord(element, 1, height)
      case Err(e) => Err(e)
      case Ok(y1) =>
        match Coord(element, 2, width)
        case Err(e) => Err(e)
        case Ok(x2) =>
          match Coord(element, 3, height)
          case Err(e) => Err(e)
          case Ok(y2) => Ok((x1, y1, x2, y2))
  }

  /** The corner form agrees with converting its two points separately. */
  lemma CornersArePoints(x1: Json, y1: Json, x2: Json, y2: Json, width: int, height: int)
    requires IsNumber(x1) && IsNumber(y1) && IsNumber(x2) && IsNumber(y2)
    ensures var c := Corners(JArray([x1, y1, x2, y2]), width, height);
      var p := Coords(JArray([x1, y1]), width, height);
      var q := Coords(JArray([x2, y2]), width, height);
      c.Ok? && p.Ok? && q.Ok? && c.value == (p.value.0, p.value.1, q.value.0, q.value.1)
  {
  }

  /** On the 0-1000 grid the pixel is the integer floor of `e * size / 1000`. */
  lemma ScaleInt(e: int, size: int)
    requires 0 <= e && 0 <= size
    ensures Scale(JInt(e), size) == Ok(e * size / 1000)
  {
    Thousandths(e, size);
    TruncThousandths(e * size);
  }

  lemma Thousandths(e: int, size: int)
    ensures e as real / 1000.0 * size as real == (e * size) as real / 1000.0
  {
    assert (e * size) as real == e as real * size as real;
  }

  /** Grid points in [0, 1000] land on the screen; 0 is the first pixel and 1000 the
      screen's extent. */
  lemma ScaleBounds(e: int, size: int)
    requires 0 <= e <= 1000 && 0 <= size
    ensures 0 <= Scale(JInt(e), size).value <= size
    ensures Scale(JInt(0), size) == Ok(0) && Scale(JInt(1000), size) == Ok(size)
  {
    ScaleInt(e, size);
    ScaleInt(0, size);
    ScaleInt(1000, size);
    assert 0 <= e * size <= 1000 * size by {
      MulBounds(e, 1000, size);
    }
  }

  lemma MulBounds(a: int, b: int, c: int)
    requires 0 <= a <= b && 0 <= c
    ensures 0 <= a * c <= b * c
  {
  }

  /** The default element is the centre of the screen. */
  lemma CentreCoords(width: int, height: int)
    requires 0 <= width && 0 <= height
    ensures Coords(Centre, width, height) == Ok((width / 2, height / 2))
  {
    ScaleInt(500, width);
    ScaleInt(500, height);
  }

  /** A two-integer element on the grid converts coordinate by coordinate. */
  lemma CoordsOfPair(ex: int, ey: int, width: int, height: int)
    requires 0 <= ex && 0 <= ey && 0 <= width && 0 <= height
    ensures Coords(JArray([JInt(ex), JInt(ey)]), width, height) == Ok((ex * width / 1000, ey * height / 1000))
  {
    ScaleInt(ex, width);
    ScaleInt(ey, height);
  }

  /** An element with fewer than two entries, or a value that is not a list at all, raises. */
  lemma CoordsShort(element: Json, width: int, height: int)
    requires !element.JArray? || |element.items| < 2
    requires !element.JString? || |element.s| < 2
    ensures Coords(element, width, height).Err?
  {
  }

  // ---------------------------------------------------------------- wait

  /** `max(1, min(30, seconds))`: `min` keeps `seconds` only when it is below 30 and `max`
      keeps the result only when it is above 1, so bounds come back as the integers 30 and 1;
      comparing anything but a number raises. */
  function WaitSeconds(seconds: Json): (r: Result<Json, PyError>)
    ensures r.Ok? <==> IsNumber(seconds)
    ensures r.Ok? ==> IsNumber(r.value) && 1.0 <= AsReal(r.value).value <= 30.0
  {
    match AsReal(seconds)
    case None => Err(TypeError)
    case Some(v) => if v >= 30.0 then Ok(JInt(30)) else if v > 1.0 then Ok(seconds) else Ok(JInt(1))
  }

  /** The clamp is the identity inside (1, 30) and saturates outside it. */
  lemma WaitClamp(seconds: Json)
    requires IsNumber(seconds)
    ensures var v := AsReal(seconds).value;
      && (1.0 < v < 30.0 ==> WaitSeconds(seconds) == Ok(seconds))
      && (v >= 30.0 ==> WaitSeconds(seconds) == Ok(JInt(30)))
      && (v <= 1.0 ==> WaitSeconds(seconds) == Ok(JInt(1)))
  {
  }

  /** Without `seconds` the wait is five seconds. */
  lemma WaitDefault()
    ensures WaitSeconds(JInt(5)) == Ok(JInt(5))
  {
  }

  /** Clamping is idempotent. */
  lemma WaitIdempotent(seconds: Json)
    requires IsNumber(seconds)
    ensures WaitSeconds(WaitSeconds(seconds).value) == WaitSeconds(seconds)
  {
  }

  // ---------------------------------------------------------------- keys

  /** `key_map` of `_handle_key_press`, keyed by the lower-cased key name. */
  const KeyTable: seq<(string, int)> := [
    ("enter", 66), ("delete", 67), ("volume_up", 24), ("volume_down", 25),
    ("app_switch", 187), ("snapshot", 120)]

  function KeyCode(key: string): (r: Option<int>)
    ensures r.Some? ==> (Lower(key), r.value) in KeyTable
  {
    Lookup(KeyTable, Lower(key))
  }

  /** A key name is looked up by its lower-cased form: a name that lower-cases to a table
      key gets that key's code ("ENTER" is 66, "Volume_Down" is 25), and any other name gets
      none. */
  lemma KeyCodeOfTable(key: string)
    ensures forall i :: 0 <= i < |KeyTable| && Lower(key) == KeyTable[i].0 ==> KeyCode(key) == Some(KeyTable[i].1)
    ensures KeyCode(key).None? <==> forall i :: 0 <= i < |KeyTable| ==> Lower(key) != KeyTable[i].0
  {
    KeyTableDistinct();
    forall i | 0 <= i < |KeyTable| && Lower(key) == KeyTable[i].0
      ensures KeyCode(key) == Some(KeyTable[i].1)
    {
      LookupDistinct(KeyTable, i);
    }
  }

  /** No key name appears twice in the table. */
  lemma KeyTableDistinct()
    ensures DistinctKeys(KeyTable)
  {
    forall i, j | 0 <= i < j < |KeyTable| ensures KeyTable[i].0 != KeyTable[j].0 {
      assert KeyTable[i].0[0] != KeyTable[j].0[0] || KeyTable[i].0[|KeyTable[i].0| - 1] != KeyTable[j].0[|KeyTable[j].0| - 1];
    }
  }

  /** Keys outside the table (`back`, `home`) are not key-press codes. */
  lemma KeyCodeUnknown()
    ensures KeyCode("back").None?
  {
    assert Lower("back") == "back";
  }

  lemma KeyCodeIgnoresCase(key: string, other: string)
    requires Lower(key) == Lower(other)
    ensures KeyCode(key) == KeyCode(other)
  {
  }

  // ---------------------------------------------------------------- launching

  /** `app_map` of `_find_package_by_name`: the package of a display name that the static
      table knows (`name in app_map`, then `app_map[name]`). */
  function AppPackage(name: string): (r: Option<string>)
    ensures r.Some? ==> |r.value| > 0
  {
    if name == "微信" then Some("com.tencent.mm")
    else if name == "QQ" then Some("com.tencent.mobileqq")
    else if name == "淘宝" then Some("com.taobao.taobao")
    else if name == "京东" then Some("com.jingdong.app.mall")
    else if name == "拼多多" then Some("com.xunmeng.pinduoduo")
    else if name == "抖音" then Some("com.ss.android.ugc.aweme")
    else if name == "快手" then Some("com.smile.gifmaker")
    else if name == "美团" then Some("com.sankuai.meituan")
    else if name == "饿了么" then Some("com.ele.me")
    else if name == "支付宝" then Some("com.eg.android.AlipayGphone")
    else if name == "高德地图" then Some("com.autonavi.minimap")
    else if name == "百度地图" then Some("com.baidu.BaiduMap")
    else if name == "滴滴" then Some("com.sdu.didi.psnger")
    else if name == "网易云音乐" then Some("com.netease.cloudmusic")
    else if name == "QQ音乐" then Some("com.tencent.qqmusic")
    else if name == "爱奇艺" then Some("com.qiyi.video")
    else if name == "腾讯视频" then Some("com.tencent.qqlive")
    else if name == "优酷" then Some("com.youku.phone")
    else if name == "哔哩哔哩" then Some("tv.danmaku.bili")
    else if name == "B站" then Some("tv.danmaku.bili")
    else if name == "小红书" then Some("com.xingin.xhs")
    else if name == "知乎" then Some("com.zhihu.android")
    else if name == "微博" then Some("com.sina.weibo")
    else if name == "今日头条" then Some("com.ss.android.article.news")
    else if name == "携程" then Some("ctrip.android.view")
    else if name == "飞猪" then Some("com.taobao.trip")
    else if name == "12306" then Some("com.MobileTicket")
    else if name == "设置" then Some("com.android.settings")
    else if name == "相机" then Some("com.android.camera")
    else if name == "相册" then Some("com.android.gallery3d")
    else if name == "日历" then Some("com.android.calendar")
    else if name == "时钟" then Some("com.android.deskclock")
    else if name == "计算器" then Some("com.android.calculator2")
    else if name == "文件管理" then Some("com.android.fileexplorer")
    else if name == "应用商店" then Some("com.android.vending")
    else None
  }

  /** Two names for the same application share its package. */
  lemma AppPackageAliases()
    ensures AppPackage("哔哩哔哩") == AppPackage("B站") == Some("tv.danmaku.bili")
    ensures AppPackage("微信") == Some("com.tencent.mm")
  {
  }

  /** `keyword_map` of `_extract_keywords`, in its declaration order. */
  const KeywordHints: seq<(string, seq<string>)> := [
    ("剑网3", ["jx3", "jianwang", "seasun"]),
    ("剑网3无界", ["jx3", "jianwang", "seasun", "wujie"]),
    ("王者荣耀", ["sgame", "honor", "kings"]),
    ("原神", ["genshin", "mihoyo"]),
    ("崩坏", ["honkai", "mihoyo", "bh3"]),
    ("阴阳师", ["onmyoji", "netease"]),
    ("明日方舟", ["arknights", "hypergryph"]),
    ("和平精英", ["pubg", "tencent", "peacekeeper"]),
    ("英雄联盟", ["lol", "league", "tencent"]),
    ("穿越火线", ["crossfire", "cf"])]

  /** The keyword list after the first `n` hints: the name itself, then the keywords of
      every hint whose key occurs in the name, in hint order. */
  function KeywordsUpTo(appName: string, n: nat): (r: seq<string>)
    requires n <= |KeywordHints|
    ensures |r| >= 1 && r[0] == appName
  {
    if n == 0 then [appName]
    else
      var before := KeywordsUpTo(appName, n - 1);
      if Contains(appName, KeywordHints[n - 1].0) then before + KeywordHints[n - 1].1 else before
  }

  function Keywords(appName: string): seq<string> {
    KeywordsUpTo(appName, |KeywordHints|)
  }

  /** Every keyword of a hint whose key occurs in the name is searched for. */
  lemma {:induction false} KeywordsIncludeHints(appName: string, n: nat, h: nat)
    requires h < n <= |KeywordHints| && Contains(appName, KeywordHints[h].0)
    ensures forall w :: w in KeywordHints[h].1 ==> w in KeywordsUpTo(appName, n)
    decreases n
  {
    if h < n - 1 {
      KeywordsIncludeHints(appName, n - 1, h);
    }
  }

  /** Nothing else is searched for: each keyword is the name or belongs to a matching hint. */
  lemma {:induction false} KeywordsOnlyHints(appName: string, n: nat, w: string)
    requires n <= |KeywordHints| && w in KeywordsUpTo(appName, n)
    ensures w == appName || exists h :: 0 <= h < n && Contains(appName, KeywordHints[h].0) && w in KeywordHints[h].1
    decreases n
  {
    if n > 0 {
      var before := KeywordsUpTo(appName, n - 1);
      if w in before {
        KeywordsOnlyHints(appName, n - 1, w);
      }
    }
  }

  /** A name that contains no hint key is searched for by itself. */
  lemma KeywordsPlain(appName: string)
    requires forall h :: 0 <= h < |KeywordHints| ==> !Contains(appName, KeywordHints[h].0)
    ensures Keywords(appName) == [appName]
  {
    var n := |KeywordHints|;
    forall w | w in Keywords(appName) ensures w == appName {
      KeywordsOnlyHints(appName, n, w);
    }
    KeywordsPlainUpTo(appName, n);
  }

  lemma {:induction false} KeywordsPlainUpTo(appName: string, n: nat)
    requires n <= |KeywordHints|
    requires forall h :: 0 <= h < |KeywordHints| ==> !Contains(appName, KeywordHints[h].0)
    ensures KeywordsUpTo(appName, n) == [appName]
    decreases n
  {
    if n > 0 {
      KeywordsPlainUpTo(appName, n - 1);
    }
  }

  /** A line of `pm list packages -3`: the package follows the `package:` prefix. */
  function PackageOf(line: string): Option<string> {
    if StartsWith(line, "package:") then Some(Strip(Replace(line, "package:", ""))) else None
  }

  /** The packages whose lines were found, in order. */
  function Present(parsed: seq<Option<string>>): (r: seq<string>)
    ensures |r| <= |parsed|
    decreases |parsed|
  {
    if |parsed| == 0 then []
    else
      var before := Present(parsed[..|parsed| - 1]);
      match parsed[|parsed| - 1]
      case None => before
      case Some(p) => before + [p]
  }

  function ParsedPackages(lines: seq<string>): (r: seq<Option<string>>)
    ensures |r| == |lines| && forall i :: 0 <= i < |lines| ==> r[i] == PackageOf(lines[i])
  {
    seq(|lines|, i requires 0 <= i < |lines| => PackageOf(lines[i]))
  }

  /** The package list `_search_package_on_device` builds from the shell's output. */
  function Packages(output: string): seq<string> {
    Present(ParsedPackages(Split(Strip(output), "\n")))
  }

  lemma PresentSnoc(parsed: seq<Option<string>>, i: nat)
    requires i < |parsed|
    ensures Present(parsed[..i + 1]) == Present(parsed[..i]) + (if parsed[i].Some? then [parsed[i].value] else [])
  {
    assert parsed[..i + 1][..i] == parsed[..i];
  }

  /** A listed line gives back the package printed after the prefix. */
  lemma PackageLineRoundTrip(pkg: string)
    requires !Contains(pkg, "package:") && Strip(pkg) == pkg
    ensures PackageOf("package:" + pkg) == Some(pkg)
  {
    var line := "package:" + pkg;
    assert StartsWith(line, "package:");
    assert Find(line, "package:") == Some(0) by {
      assert "package:" <= line;
    }
    assert line[8..] == pkg;
    assert line[..0] == "";
    ReplaceAbsent(pkg, "package:", "");
  }

  /** A package matches when its lower-cased name contains some lower-cased keyword. */
  predicate PackageMatches(pkg: string, keywords: seq<string>) {
    exists k :: 0 <= k < |keywords| && Contains(Lower(pkg), Lower(keywords[k]))
  }

  /** The first package, in list order, that matches. */
  function FirstPackage(packages: seq<string>, keywords: seq<string>): (r: Option<string>)
    ensures r.Some? ==> exists i :: 0 <= i < |packages| && packages[i] == r.value && PackageMatches(packages[i], keywords)
                                 && (forall j :: 0 <= j < i ==> !PackageMatches(packages[j], keywords))
    ensures r.None? ==> forall i :: 0 <= i < |packages| ==> !PackageMatches(packages[i], keywords)
    decreases |packages|
  {
    if |packages| == 0 then None
    else if PackageMatches(packages[0], keywords) then Some(packages[0])
    else
      var r := FirstPackage(packages[1..], keywords);
      assert forall j :: 1 <= j < |packages| ==> packages[j] == packages[1..][j - 1];
      if r.Some? then
        var i :| 0 <= i < |packages[1..]| && packages[1..][i] == r.value && PackageMatches(packages[1..][i], keywords)
                 && (forall j :: 0 <= j < i ==> !PackageMatches(packages[1..][j], keywords));
        assert packages[i + 1] == r.value;
        r
      else r
  }

  /** The search depends on the keywords only through their lower-cased forms. */
  lemma FirstPackageIgnoresCase(packages: seq<string>, keywords: seq<string>, other: seq<string>)
    requires |keywords| == |other| && forall k :: 0 <= k < |keywords| ==> Lower(keywords[k]) == Lower(other[k])
    ensures FirstPackage(packages, keywords) == FirstPackage(packages, other)
    decreases |packages|
  {
    if |packages| > 0 {
      FirstPackageIgnoresCase(packages[1..], keywords, other);
    }
  }

  /** `_extract_keywords`: start from the name and extend with each matching hint. */
  method ExtractKeywords(appName: string) returns (keywords: seq<string>)
    ensures keywords == Keywords(appName)
  {
    keywords := [appName];
    var i := 0;
    while i < |KeywordHints|
      invariant 0 <= i <= |KeywordHints|
      invariant keywords == KeywordsUpTo(appName, i)
    {
      var hint := KeywordHints[i];
      if Contains(appName, hint.0) {
        keywords := keywords + hint.1;
      }
      i := i + 1;
    }
  }

  /** The listing of `_search_package_on_device`: the output is stripped and split into
      lines, and each line's package is collected. */
  method ParsePackages(output: string) returns (packages: seq<string>)
    ensures packages == Packages(output)
  {
    var lines := Split(Strip(output), "\n");
    packages := CollectPackages(lines);
  }

  /** The listing loop over the lines. */
  method CollectPackages(lines: seq<string>) returns (packages: seq<string>)
    ensures packages == Present(ParsedPackages(lines))
  {
    ghost var parsed := ParsedPackages(lines);
    packages := [];
    var i := 0;
    while i < |lines|
      invariant 0 <= i <= |lines|
      invariant packages == Present(parsed[..i])
    {
      var pkg := PackageOf(lines[i]);
      assert Present(parsed[..i + 1]) == packages + (if pkg.Some? then [pkg.value] else []) by {
        PresentSnoc(parsed, i);
      }
      if pkg.Some? {
        packages := packages + [pkg.value];
      }
      i := i + 1;
    }
    assert parsed[..|lines|] == parsed;
  }

  // The matching loops of `_search_package_on_device`: the first package, and within it
  // the first keyword, that matches ends the search.

  /** One step of the search: the first match from `i` on is the `i`-th name or lies after it. */
  lemma FirstPackageStep(packages: seq<string>, keywords: seq<string>, i: nat)
    requires i < |packages|
    ensures FirstPackage(packages[i..], keywords) ==
              if PackageMatches(packages[i], keywords) then Some(packages[i]) else FirstPackage(packages[i + 1..], keywords)
  {
    assert packages[i..][0] == packages[i];
    assert packages[i..][1..] == packages[i + 1..];
  }

  /** The inner loop of `_search_package_on_device`: does any keyword occur in the name? */
  method MatchesAny(pkg: string, keywords: seq<string>) returns (hit: bool)
    ensures hit == PackageMatches(pkg, keywords)
  {
    var pkgLower := Lower(pkg);
    var j := 0;
    while j < |keywords|
      invariant 0 <= j <= |keywords|
      invariant forall k :: 0 <= k < j ==> !Contains(pkgLower, Lower(keywords[k]))
    {
      var kw := Lower(keywords[j]);
      if Contains(pkgLower, kw) {
        return true;
      }
      j := j + 1;
    }
    return false;
  }

  method MatchPackage(packages: seq<string>, keywords: seq<string>) returns (found: Option<string>)
    ensures found == FirstPackage(packages, keywords)
  {
    var i := 0;
    while i < |packages|
      invariant 0 <= i <= |packages|
      invariant FirstPackage(packages[i..], keywords) == FirstPackage(packages, keywords)
    {
      FirstPackageStep(packages, keywords, i);
      var hit := MatchesAny(packages[i], keywords);
      if hit {
        return Some(packages[i]);
      }
      i := i + 1;
    }
    return None;
  }

  // ---------------------------------------------------------------- messages

  /** `f"({x}, {y})"` */
  function Point(x: int, y: int): string {
    "(" + IntToString(x) + ", " + IntToString(y) + ")"
  }

  /** `f"({x},{y})"` */
  function Pair(x: int, y: int): string {
    "(" + IntToString(x) + "," + IntToString(y) + ")"
  }
}
