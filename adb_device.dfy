/** One attached Android device driven through `adb shell`. The shell itself is an oracle:
    it answers the n-th command issued with its output, or raises. Every command issued is
    kept in a log, in order. */
module Adb {
  import opened Wrappers
  import opened Strings
  import opened JsonValues

  /** The shell commands the controller issues, by what they ask the device to do. */
  datatype Command =
    | WmSize                                   // wm size
    | GetProp                                  // getprop
    | InputTap(x: int, y: int)                 // input tap x y
    | InputSwipe(x1: int, y1: int, x2: int, y2: int, duration: Json)  // input swipe x1 y1 x2 y2 duration
    | InputText(escaped: string)               // input text "escaped"
    | ImeBroadcast(text: string)               // am broadcast -a ADB_INPUT_B64 --es msg (base64 of text)
    | KeyEvent(code: int)                      // input keyevent code
    | StartMainActivity(package: string)       // am start -n (main activity found by pm dump)
    | MonkeyLaunch(package: string)            // monkey -p package ... 2>/dev/null
    | StartLauncher(package: string)           // am start -a MAIN -c LAUNCHER package
    | MonkeySimple(package: string)            // monkey -p package -c LAUNCHER 1
    | ForceStop(package: string)               // am force-stop package
    | ListThirdPartyPackages                   // pm list packages -3

  datatype Reply = Raised | Output(text: string)

  const DefaultScreen: (int, int) := (1080, 1920)
  const SizeMarker: string := "Physical size:"

  const KeyBack: int := 4
  const KeyHome: int := 3
  const KeyRecent: int := 187
  const KeyEnter: int := 66

  /** The screen size read from `wm size`: "Physical size: WxH" gives (W, H); a missing marker,
      a size that does not split into exactly two parts on "x", a part that is not an
      integer, or a raising shell all give the default 1080x1920. */
  function ParseWmSize(reply: Reply): (r: (int, int))
    ensures r != DefaultScreen ==> reply.Output? && Contains(Strip(reply.text), SizeMarker)
  {
    match reply
    case Raised => DefaultScreen
    case Output(raw) =>
      var out := Strip(raw);
      if !Contains(out, SizeMarker) then DefaultScreen
      else
        var parts := Split(out, SizeMarker);
        ParseSize(Strip(parts[|parts| - 1]))
  }

  /** "WxH" after the marker. */
  function ParseSize(sizeText: string): (int, int) {
    if !Contains(sizeText, "x") then DefaultScreen
    else
      var wh := Split(sizeText, "x");
      if |wh| != 2 then DefaultScreen
      else
        match (ParseInt(wh[0]), ParseInt(wh[1]))
        case (Some(w), Some(h)) => (w, h)
        case _ => DefaultScreen
  }

  lemma ParseSizeOf(sizeText: string, dw: string, dh: string, w: int, h: int)
    requires Contains(sizeText, "x") && Split(sizeText, "x") == [dw, dh]
    requires ParseInt(dw) == Some(w) && ParseInt(dh) == Some(h)
    ensures ParseSize(sizeText) == (w, h)
  {
  }

  lemma SizeRoundTrip(w: nat, h: nat)
    ensures ParseSize(NatToString(w) + "x" + NatToString(h)) == (w, h)
  {
    var dw, dh := NatToString(w), NatToString(h);
    var size := dw + "x" + dh;
    assert Split(size, "x") == [dw, dh] by {
      DigitsAvoid(dw, 'x');
      DigitsAvoid(dh, 'x');
      SplitAtChar(dw, 'x', dh);
    }
    assert Contains(size, "x") by {
      ContainsAt(size, "x", |dw|);
    }
    assert ParseInt(dw) == Some(w) by {
      ParseIntRoundTrip(w);
    }
    assert ParseInt(dh) == Some(h) by {
      ParseIntRoundTrip(h);
    }
    ParseSizeOf(size, dw, dh, w, h);
  }

  lemma ParseWmSizeOf(raw: string, rest: string, size: string)
    requires Strip(raw) == raw && Contains(raw, SizeMarker)
    requires Split(raw, SizeMarker) == ["", rest] && Strip(rest) == size
    ensures ParseWmSize(Output(raw)) == ParseSize(size)
  {
  }

  /** What `wm size` prints for a W x H screen. */
  function WmSizeText(w: nat, h: nat): string {
    SizeMarker + (" " + (NatToString(w) + "x" + NatToString(h)))
  }

  lemma WmSizeTextStripped(w: nat, h: nat)
    ensures Strip(WmSizeText(w, h)) == WmSizeText(w, h)
  {
    var raw, dh := WmSizeText(w, h), NatToString(h);
    assert raw[|raw| - 1] == dh[|dh| - 1];
    DigitNotSpace(dh[|dh| - 1]);
    StripClean(raw);
  }

  lemma WmSizeTextSplit(w: nat, h: nat)
    ensures Split(WmSizeText(w, h), SizeMarker) == ["", " " + (NatToString(w) + "x" + NatToString(h))]
  {
    var dw, dh := NatToString(w), NatToString(h);
    var rest := " " + (dw + "x" + dh);
    DigitsAvoid(dw, 'P');
    DigitsAvoid(dh, 'P');
    forall k | 0 <= k < |rest| ensures rest[k] != 'P' {
      if k > 0 && k <= |dw| { assert rest[k] == dw[k - 1]; }
      if k > |dw| + 1 { assert rest[k] == dh[k - |dw| - 2]; }
    }
    AbsentCharNotContains(rest, SizeMarker, 0);
    SplitAtStart(SizeMarker, rest);
  }

  lemma SizeTextStripped(w: nat, h: nat)
    ensures Strip(" " + (NatToString(w) + "x" + NatToString(h))) == NatToString(w) + "x" + NatToString(h)
  {
    var dw, dh := NatToString(w), NatToString(h);
    var size := dw + "x" + dh;
    var rest := " " + size;
    assert rest[1..] == size;
    assert size[0] == dw[0] && size[|size| - 1] == dh[|dh| - 1];
    DigitNotSpace(dw[0]);
    DigitNotSpace(dh[|dh| - 1]);
    StripClean(size);
    assert TrimEnd(rest) == rest;
  }

  /** The text a device prints for a W x H screen parses back to (W, H). */
  lemma WmSizeRoundTrip(w: nat, h: nat)
    ensures ParseWmSize(Output(WmSizeText(w, h))) == (w, h)
  {
    var raw := WmSizeText(w, h);
    WmSizeTextStripped(w, h);
    StartsWithContains(raw, SizeMarker);
    WmSizeTextSplit(w, h);
    SizeTextStripped(w, h);
    ParseWmSizeOf(raw, " " + (NatToString(w) + "x" + NatToString(h)), NatToString(w) + "x" + NatToString(h));
    SizeRoundTrip(w, h);
  }

  lemma WmSizeRaised()
    ensures ParseWmSize(Raised) == (1080, 1920)
  {
  }

  // The escaping of `input_text`, applied in this order: backslash doubled, then `"`, `'`,
  // space and `&`. A backslash added in a later step is therefore never doubled.

  /** The escaping of `input_text`; the chain of replacements escapes each character
      independently of its neighbours. */
  function EscapeText(text: string): (r: string)
    ensures r == EscapeEach(text)
  {
    ReplacementsCharwise(text);
    ReplaceChain(text)
  }

  /** The five replacements, in order. */
  function ReplaceChain(text: string): string {
    var a := Replace(text, "\\", "\\\\");
    var b := Replace(a, "\"", "\\\"");
    var c := Replace(b, "'", "\\'");
    var d := Replace(c, " ", "%s");
    Replace(d, "&", "\\&")
  }

  /** What one character of the text becomes on the command line. */
  function EscapeChar(c: char): string {
    if c == '\\' then "\\\\"
    else if c == '"' then "\\\""
    else if c == '\'' then "\\'"
    else if c == ' ' then "%s"
    else if c == '&' then "\\&"
    else [c]
  }

  /** The escaping done one character at a time. */
  function EscapeEach(t: string): string
    decreases |t|
  {
    if |t| == 0 then "" else EscapeChar(t[0]) + EscapeEach(t[1..])
  }

  /** The five replacements as character maps. */
  function Stages(t: string): string {
    MapChar(MapChar(MapChar(MapChar(MapChar(t, '\\', "\\\\"), '"', "\\\""), '\'', "\\'"), ' ', "%s"), '&', "\\&")
  }

  lemma StagesAppend(a: string, b: string)
    ensures Stages(a + b) == Stages(a) + Stages(b)
  {
    var a1, b1 := MapChar(a, '\\', "\\\\"), MapChar(b, '\\', "\\\\");
    MapCharAppend(a, b, '\\', "\\\\");
    var a2, b2 := MapChar(a1, '"', "\\\""), MapChar(b1, '"', "\\\"");
    MapCharAppend(a1, b1, '"', "\\\"");
    var a3, b3 := MapChar(a2, '\'', "\\'"), MapChar(b2, '\'', "\\'");
    MapCharAppend(a2, b2, '\'', "\\'");
    var a4, b4 := MapChar(a3, ' ', "%s"), MapChar(b3, ' ', "%s");
    MapCharAppend(a3, b3, ' ', "%s");
    MapCharAppend(a4, b4, '&', "\\&");
  }

  lemma MapCharPair(x: char, y: char, c: char, rep: string)
    ensures MapChar([x, y], c, rep) == MapChar([x], c, rep) + MapChar([y], c, rep)
  {
    MapCharAppend([x], [y], c, rep);
    assert [x] + [y] == [x, y];
  }

  lemma StagesBackslash()
    ensures Stages("\\") == "\\\\"
  {
    MapCharPair('\\', '\\', '"', "\\\"");
    MapCharPair('\\', '\\', '\'', "\\'");
    MapCharPair('\\', '\\', ' ', "%s");
    MapCharPair('\\', '\\', '&', "\\&");
  }

  lemma StagesDoubleQuote()
    ensures Stages("\"") == "\\\""
  {
    MapCharPair('\\', '"', '\'', "\\'");
    MapCharPair('\\', '"', ' ', "%s");
    MapCharPair('\\', '"', '&', "\\&");
  }

  lemma StagesQuote()
    ensures Stages("'") == "\\'"
  {
    MapCharPair('\\', '\'', ' ', "%s");
    MapCharPair('\\', '\'', '&', "\\&");
  }

  lemma StagesSpace()
    ensures Stages(" ") == "%s"
  {
    MapCharPair('%', 's', '&', "\\&");
  }

  lemma MapCharSingle(x: char, c: char, rep: string)
    ensures MapChar([x], c, rep) == if x == c then rep else [x]
  {
    assert [x][1..] == [];
  }

  lemma StagesOther(x: char)
    requires !NeedsEscape(x)
    ensures Stages([x]) == [x]
  {
    MapCharSingle(x, '\\', "\\\\");
    MapCharSingle(x, '"', "\\\"");
    MapCharSingle(x, '\'', "\\'");
    MapCharSingle(x, ' ', "%s");
    MapCharSingle(x, '&', "\\&");
  }

  lemma StagesAmpersand()
    ensures Stages("&") == "\\&"
  {
    MapCharSingle('&', '\\', "\\\\");
    MapCharSingle('&', '"', "\\\"");
    MapCharSingle('&', '\'', "\\'");
    MapCharSingle('&', ' ', "%s");
    MapCharSingle('&', '&', "\\&");
  }

  lemma StagesChar(x: char)
    ensures Stages([x]) == EscapeChar(x)
  {
    if !NeedsEscape(x) {
      StagesOther(x);
    } else if x == '\\' {
      StagesBackslash();
    } else if x == '"' {
      StagesDoubleQuote();
    } else if x == '\'' {
      StagesQuote();
    } else if x == ' ' {
      StagesSpace();
    } else {
      StagesAmpersand();
    }
  }

  lemma {:induction false} StagesEach(t: string)
    ensures Stages(t) == EscapeEach(t)
    decreases |t|
  {
    if |t| > 0 {
      assert t == [t[0]] + t[1..];
      StagesAppend([t[0]], t[1..]);
      StagesChar(t[0]);
      StagesEach(t[1..]);
    }
  }

  /** The chain of replacements escapes each character on its own. */
  lemma ReplacementsCharwise(t: string)
    ensures ReplaceChain(t) == EscapeEach(t)
  {
    var a := MapChar(t, '\\', "\\\\");
    ReplaceChar(t, '\\', "\\\\");
    var b := MapChar(a, '"', "\\\"");
    ReplaceChar(a, '"', "\\\"");
    var c := MapChar(b, '\'', "\\'");
    ReplaceChar(b, '\'', "\\'");
    var d := MapChar(c, ' ', "%s");
    ReplaceChar(c, ' ', "%s");
    ReplaceChar(d, '&', "\\&");
    StagesEach(t);
  }

  lemma {:induction false} EachHasNoSpace(t: string)
    ensures forall i :: 0 <= i < |EscapeEach(t)| ==> EscapeEach(t)[i] != ' '
    decreases |t|
  {
    if |t| > 0 {
      EachHasNoSpace(t[1..]);
      var head := EscapeChar(t[0]);
      assert forall i :: 0 <= i < |head| ==> head[i] != ' ';
      assert EscapeEach(t) == head + EscapeEach(t[1..]);
    }
  }

  /** The escaped text never holds a space, so it stays one shell word. */
  lemma EscapedHasNoSpace(t: string)
    ensures forall i :: 0 <= i < |EscapeText(t)| ==> EscapeText(t)[i] != ' '
  {
    EachHasNoSpace(t);
  }

  predicate NeedsEscape(c: char) {
    c == '\\' || c == '"' || c == '\'' || c == ' ' || c == '&'
  }

  /** Text without any of the five special characters goes through unchanged. */
  lemma {:induction false} EscapePlain(t: string)
    requires forall i :: 0 <= i < |t| ==> !NeedsEscape(t[i])
    ensures EscapeText(t) == t
  {
    EachPlain(t);
  }

  lemma {:induction false} EachPlain(t: string)
    requires forall i :: 0 <= i < |t| ==> !NeedsEscape(t[i])
    ensures EscapeEach(t) == t
    decreases |t|
  {
    if |t| > 0 {
      EachPlain(t[1..]);
      assert t == [t[0]] + t[1..];
    }
  }

  /** A quote gains one backslash, which the earlier backslash step cannot double. */
  lemma EscapeQuote()
    ensures EscapeText("\"") == "\\\""
  {
  }

  /** A backslash before a quote: the backslash doubled, the quote escaped once. */
  lemma EscapeBackslashQuote(t: string)
    requires t == "\\\""
    ensures EscapeText(t) == "\\\\\\\""
  {
    EachCons('"', "");
    EachCons('\\', "\"");
    assert t == ['\\'] + "\"";
  }

  /** Escaping a character in front of a text. */
  lemma EachCons(c: char, t: string)
    ensures EscapeEach([c] + t) == EscapeChar(c) + EscapeEach(t)
  {
    assert ([c] + t)[1..] == t;
  }


  // Swipe geometry of the directional swipes: a vertical swipe runs along the middle column
  // from 70% (up) or 30% (down) of the height; a horizontal one along the middle row from 80%
  // (left) or 20% (right) of the width. The coordinates are (x1, y1, x2, y2), and the distance
  // is a whole number of per cent of the screen.

  /** `int(n * p / 100)`: n scaled by p per cent, truncated toward zero like Python's `int`. */
  function Percent(n: int, p: int): (r: int)
    ensures n * p >= 0 ==> 100 * r <= n * p < 100 * r + 100
    ensures n * p < 0 ==> 100 * r - 100 < n * p <= 100 * r
  {
    var q := n * p;
    if q >= 0 then q / 100 else -((-q) / 100)
  }

  /** On a non-negative length, a larger share never gives a smaller coordinate. */
  lemma PercentMonotone(n: int, p1: int, p2: int)
    requires n >= 0 && p1 <= p2
    ensures Percent(n, p1) <= Percent(n, p2)
  {
    assert n * p1 <= n * p2 by {
      assert n * (p2 - p1) >= 0;
    }
  }

  /** `swipe_up`: along the centre column, from 70% of the height to 70% minus the distance. */
  function SwipeUpPath(w: int, h: int, distance: int): (r: (int, int, int, int))
    ensures r.0 == r.2 == w / 2
    ensures h >= 0 ==> 100 * r.1 <= h * 70 < 100 * r.1 + 100
    ensures h * (70 - distance) >= 0 ==> 100 * r.3 <= h * (70 - distance) < 100 * r.3 + 100
  {
    (w / 2, Percent(h, 70), w / 2, Percent(h, 70 - distance))
  }

  /** `swipe_down`: along the centre column, from 30% of the height to 30% plus the distance. */
  function SwipeDownPath(w: int, h: int, distance: int): (r: (int, int, int, int))
    ensures r.0 == r.2 == w / 2
    ensures h >= 0 ==> 100 * r.1 <= h * 30 < 100 * r.1 + 100
    ensures h * (30 + distance) >= 0 ==> 100 * r.3 <= h * (30 + distance) < 100 * r.3 + 100
  {
    (w / 2, Percent(h, 30), w / 2, Percent(h, 30 + distance))
  }

  /** `swipe_left`: along the centre row, from 80% of the width to 80% minus the distance. */
  function SwipeLeftPath(w: int, h: int, distance: int): (r: (int, int, int, int))
    ensures r.1 == r.3 == h / 2
    ensures w >= 0 ==> 100 * r.0 <= w * 80 < 100 * r.0 + 100
    ensures w * (80 - distance) >= 0 ==> 100 * r.2 <= w * (80 - distance) < 100 * r.2 + 100
  {
    (Percent(w, 80), h / 2, Percent(w, 80 - distance), h / 2)
  }

  /** `swipe_right`: along the centre row, from 20% of the width to 20% plus the distance. */
  function SwipeRightPath(w: int, h: int, distance: int): (r: (int, int, int, int))
    ensures r.1 == r.3 == h / 2
    ensures w >= 0 ==> 100 * r.0 <= w * 20 < 100 * r.0 + 100
    ensures w * (20 + distance) >= 0 ==> 100 * r.2 <= w * (20 + distance) < 100 * r.2 + 100
  {
    (Percent(w, 20), h / 2, Percent(w, 20 + distance), h / 2)
  }

  /** The shell's answer to `c` issued as the n-th command. */
  function AnswerAt(respond: (nat, Command) -> Reply, n: nat, c: Command): Reply {
    respond(n, c)
  }

  /** Whether the shell call `c`, issued as the n-th command, returns normally. */
  predicate Succeeds(respond: (nat, Command) -> Reply, n: nat, c: Command) {
    AnswerAt(respond, n, c).Output?
  }

  /** The `input swipe` command along a path. */
  function SwipeCommand(path: (int, int, int, int), duration: Json): Command {
    InputSwipe(path.0, path.1, path.2, path.3, duration)
  }

  /** On a screen of non-negative size and for a non-negative distance, a vertical swipe keeps
      to the centre column and moves the way it is named (up: its end is no lower than its
      start), and likewise a horizontal swipe keeps to the centre row. */
  lemma SwipeGeometry(w: int, h: int, distance: int)
    requires w >= 0 && h >= 0 && distance >= 0
    ensures var (x1, y1, x2, y2) := SwipeUpPath(w, h, distance); x1 == x2 == w / 2 && y2 <= y1
    ensures var (x1, y1, x2, y2) := SwipeDownPath(w, h, distance); x1 == x2 == w / 2 && y1 <= y2
    ensures var (x1, y1, x2, y2) := SwipeLeftPath(w, h, distance); y1 == y2 == h / 2 && x2 <= x1
    ensures var (x1, y1, x2, y2) := SwipeRightPath(w, h, distance); y1 == y2 == h / 2 && x1 <= x2
  {
    PercentMonotone(h, 70 - distance, 70);
    PercentMonotone(h, 30, 30 + distance);
    PercentMonotone(w, 80 - distance, 80);
    PercentMonotone(w, 20, 20 + distance);
  }

  /** `tap_relative`: the 0-1000 scale when either coordinate exceeds 1, fractions otherwise. */
  function RelativePoint(x: real, y: real, w: int, h: int): (int, int) {
    if x > 1.0 || y > 1.0 then (Trunc(x / 1000.0 * w as real), Trunc(y / 1000.0 * h as real))
    else (Trunc(x * w as real), Trunc(y * h as real))
  }

  /** A fraction and the same point on the 0-1000 scale select the same pixel, whenever the
      scale is recognised; the corners map to the corners. */
  lemma RelativeScalesAgree(x: real, y: real, w: int, h: int)
    requires 0.0 <= x <= 1.0 && 0.0 <= y <= 1.0 && (x * 1000.0 > 1.0 || y * 1000.0 > 1.0)
    ensures RelativePoint(x, y, w, h) == RelativePoint(x * 1000.0, y * 1000.0, w, h)
  {
    assert x * 1000.0 / 1000.0 == x && y * 1000.0 / 1000.0 == y;
  }

  lemma RelativeCorners(w: int, h: int)
    ensures RelativePoint(1000.0, 1000.0, w, h) == (w, h)
    ensures RelativePoint(0.0, 0.0, w, h) == (0, 0)
    ensures RelativePoint(1.0, 1.0, w, h) == (w, h)
  {
    assert 1000.0 / 1000.0 * w as real == w as real && 1000.0 / 1000.0 * h as real == h as real;
    TruncWhole(w);
    TruncWhole(h);
    TruncWhole(0);
  }

  /** `launch_app` falls back to `monkey` when the first start reports an error or prints nothing. */
  predicate StartFailed(out: string) {
    Contains(out, "Error") || Strip(out) == ""
  }

  /** The commands the `screen_size` property issues: one `wm size` query unless the size is
      already cached. */
  function Looked(cache: Option<(int, int)>): (r: seq<Command>)
    ensures |r| <= 1
  {
    if cache.Some? then [] else [WmSize]
  }

  /** The size `screen_size` returns when its query would be the n-th command. */
  function SizeSeen(cache: Option<(int, int)>, respond: (nat, Command) -> Reply, n: nat): (int, int) {
    if cache.Some? then cache.value else ParseWmSize(AnswerAt(respond, n, WmSize))
  }

  /** A cached size is reused whatever the shell would answer. */
  lemma SizeSeenCached(size: (int, int), respond: (nat, Command) -> Reply, n: nat)
    ensures SizeSeen(Some(size), respond, n) == size && Looked(Some(size)) == []
  {
  }

  /** The commands `launch_app` issues when its first command is the n-th, and what it
      returns: start the main activity; if that reports an error or prints nothing, try
      `monkey`; then start through the launcher intent. A raising call ends it with false. */
  function LaunchSteps(respond: (nat, Command) -> Reply, package: string, n: nat): (r: (seq<Command>, bool))
    ensures 1 <= |r.0| <= 3 && r.0[0] == StartMainActivity(package)
    ensures r.1 ==> r.0[|r.0| - 1] == StartLauncher(package)
  {
    var first := AnswerAt(respond, n, StartMainActivity(package));
    if first.Raised? then ([StartMainActivity(package)], false)
    else if StartFailed(first.text) then
      if AnswerAt(respond, n + 1, MonkeyLaunch(package)).Raised? then ([StartMainActivity(package), MonkeyLaunch(package)], false)
      else ([StartMainActivity(package), MonkeyLaunch(package), StartLauncher(package)],
            AnswerAt(respond, n + 2, StartLauncher(package)).Output?)
    else ([StartMainActivity(package), StartLauncher(package)], AnswerAt(respond, n + 1, StartLauncher(package)).Output?)
  }

  /** `monkey` is only tried after a start that failed, and the launcher start always follows
      unless a call raised. */
  lemma LaunchFallback(respond: (nat, Command) -> Reply, package: string, n: nat)
    ensures var first := AnswerAt(respond, n, StartMainActivity(package));
            var retried := first.Output? && StartFailed(first.text);
            var cmds := LaunchSteps(respond, package, n).0;
            && (MonkeyLaunch(package) in cmds <==> retried)
            && (StartLauncher(package) in cmds <==> (first.Output? && (retried ==> AnswerAt(respond, n + 1, MonkeyLaunch(package)).Output?)))
  {
  }

  class Device {
    const deviceId: string
    /** The shell's answer to the n-th command issued on this device. */
    const respond: (nat, Command) -> Reply
    var log: seq<Command>
    /** `_screen_size`: filled on first use, then reused. */
    var screenSize: Option<(int, int)>

    constructor (deviceId: string, respond: (nat, Command) -> Reply)
      ensures this.deviceId == deviceId && this.respond == respond
      ensures log == [] && screenSize == None
    {
      this.deviceId := deviceId;
      this.respond := respond;
      log := [];
      screenSize := None;
    }

    /** `self.device.shell(cmd)` */
    method Shell(c: Command) returns (reply: Reply)
      modifies this
      ensures reply == AnswerAt(respond, |old(log)|, c)
      ensures log == old(log) + [c] && screenSize == old(screenSize)
    {
      reply := AnswerAt(respond, |log|, c);
      log := log + [c];
    }

    /** A primitive that reports success exactly when its one shell call does not raise. */
    method Run(c: Command) returns (ok: bool)
      modifies this
      ensures ok == Succeeds(respond, |old(log)|, c)
      ensures log == old(log) + [c] && screenSize == old(screenSize)
    {
      var reply := Shell(c);
      ok := reply.Output?;
    }

    /** The `screen_size` property: asks `wm size` only while nothing is cached. */
    method ScreenSize() returns (size: (int, int))
      modifies this
      ensures old(screenSize).Some? ==> size == old(screenSize).value && log == old(log)
      ensures old(screenSize).None? ==> size == ParseWmSize(AnswerAt(respond, |old(log)|, WmSize)) && log == old(log) + [WmSize]
      ensures screenSize == Some(size)
      ensures size == SizeSeen(old(screenSize), respond, |old(log)|) && log == old(log) + Looked(old(screenSize))
    {
      if screenSize.Some? {
        size := screenSize.value;
      } else {
        var reply := Shell(WmSize);
        size := ParseWmSize(reply);
        screenSize := Some(size);
      }
    }

    method Tap(x: int, y: int) returns (ok: bool)
      modifies this
      ensures ok == Succeeds(respond, |old(log)|, InputTap(x, y))
      ensures log == old(log) + [InputTap(x, y)] && screenSize == old(screenSize)
    {
      ok := Run(InputTap(x, y));
    }

    /** `tap_relative` */
    method TapRelative(x: real, y: real) returns (ok: bool)
      modifies this
      ensures screenSize == Some(SizeSeen(old(screenSize), respond, |old(log)|))
      ensures var p := RelativePoint(x, y, screenSize.value.0, screenSize.value.1);
              var c := InputTap(p.0, p.1);
              log == old(log) + (Looked(old(screenSize)) + [c])
              && ok == Succeeds(respond, |old(log)| + |Looked(old(screenSize))|, c)
    {
      var size := ScreenSize();
      var p := RelativePoint(x, y, size.0, size.1);
      ok := Tap(p.0, p.1);
    }

    /** `long_press`: a swipe that starts and ends at the same point. */
    method LongPress(x: int, y: int, duration: Json) returns (ok: bool)
      modifies this
      ensures ok == Succeeds(respond, |old(log)|, InputSwipe(x, y, x, y, duration))
      ensures log == old(log) + [InputSwipe(x, y, x, y, duration)] && screenSize == old(screenSize)
    {
      ok := Run(InputSwipe(x, y, x, y, duration));
    }

    /** `double_tap`: two taps; it reports success whatever the taps report. */
    method DoubleTap(x: int, y: int) returns (ok: bool)
      modifies this
      ensures ok
      ensures log == old(log) + [InputTap(x, y), InputTap(x, y)] && screenSize == old(screenSize)
    {
      var first := Tap(x, y);
      var second := Tap(x, y);
      ok := true;
    }

    method Swipe(x1: int, y1: int, x2: int, y2: int, duration: Json) returns (ok: bool)
      modifies this
      ensures ok == Succeeds(respond, |old(log)|, InputSwipe(x1, y1, x2, y2, duration))
      ensures log == old(log) + [InputSwipe(x1, y1, x2, y2, duration)] && screenSize == old(screenSize)
    {
      ok := Run(InputSwipe(x1, y1, x2, y2, duration));
    }

    /** A swipe along `path`, computed from the screen size. */
    method SwipePath(path: (int, int, int, int), duration: Json) returns (ok: bool)
      modifies this
      ensures var c := SwipeCommand(path, duration);
              ok == Succeeds(respond, |old(log)|, c) && log == old(log) + [c] && screenSize == old(screenSize)
    {
      ok := Swipe(path.0, path.1, path.2, path.3, duration);
    }

    method SwipeUp(distance: int, duration: Json) returns (ok: bool)
      modifies this
      ensures screenSize == Some(SizeSeen(old(screenSize), respond, |old(log)|))
      ensures var c := SwipeCommand(SwipeUpPath(screenSize.value.0, screenSize.value.1, distance), duration);
              log == old(log) + (Looked(old(screenSize)) + [c])
              && ok == Succeeds(respond, |old(log)| + |Looked(old(screenSize))|, c)
    {
      var size := ScreenSize();
      ok := SwipePath(SwipeUpPath(size.0, size.1, distance), duration);
    }

    method SwipeDown(distance: int, duration: Json) returns (ok: bool)
      modifies this
      ensures screenSize == Some(SizeSeen(old(screenSize), respond, |old(log)|))
      ensures var c := SwipeCommand(SwipeDownPath(screenSize.value.0, screenSize.value.1, distance), duration);
              log == old(log) + (Looked(old(screenSize)) + [c])
              && ok == Succeeds(respond, |old(log)| + |Looked(old(screenSize))|, c)
    {
      var size := ScreenSize();
      ok := SwipePath(SwipeDownPath(size.0, size.1, distance), duration);
    }

    method SwipeLeft(distance: int, duration: Json) returns (ok: bool)
      modifies this
      ensures screenSize == Some(SizeSeen(old(screenSize), respond, |old(log)|))
      ensures var c := SwipeCommand(SwipeLeftPath(screenSize.value.0, screenSize.value.1, distance), duration);
              log == old(log) + (Looked(old(screenSize)) + [c])
              && ok == Succeeds(respond, |old(log)| + |Looked(old(screenSize))|, c)
    {
      var size := ScreenSize();
      ok := SwipePath(SwipeLeftPath(size.0, size.1, distance), duration);
    }

    method SwipeRight(distance: int, duration: Json) returns (ok: bool)
      modifies this
      ensures screenSize == Some(SizeSeen(old(screenSize), respond, |old(log)|))
      ensures var c := SwipeCommand(SwipeRightPath(screenSize.value.0, screenSize.value.1, distance), duration);
              log == old(log) + (Looked(old(screenSize)) + [c])
              && ok == Succeeds(respond, |old(log)| + |Looked(old(screenSize))|, c)
    {
      var size := ScreenSize();
      ok := SwipePath(SwipeRightPath(size.0, size.1, distance), duration);
    }

    /** `input_text`: the escaped text, in double quotes. */
    method InputTextPlain(text: string) returns (ok: bool)
      modifies this
      ensures ok == Succeeds(respond, |old(log)|, InputText(EscapeText(text)))
      ensures log == old(log) + [InputText(EscapeText(text))] && screenSize == old(screenSize)
    {
      ok := Run(InputText(EscapeText(text)));
    }

    /** `input_text_adbime`: a broadcast to the ADB keyboard carrying the text. */
    method InputTextAdbIme(text: string) returns (ok: bool)
      modifies this
      ensures ok == Succeeds(respond, |old(log)|, ImeBroadcast(text))
      ensures log == old(log) + [ImeBroadcast(text)] && screenSize == old(screenSize)
    {
      ok := Run(ImeBroadcast(text));
    }

    method PressKey(code: int) returns (ok: bool)
      modifies this
      ensures ok == Succeeds(respond, |old(log)|, KeyEvent(code))
      ensures log == old(log) + [KeyEvent(code)] && screenSize == old(screenSize)
    {
      ok := Run(KeyEvent(code));
    }

    method PressBack() returns (ok: bool)
      modifies this
      ensures ok == Succeeds(respond, |old(log)|, KeyEvent(4))
      ensures log == old(log) + [KeyEvent(4)] && screenSize == old(screenSize)
    {
      ok := PressKey(KeyBack);
    }

    method PressHome() returns (ok: bool)
      modifies this
      ensures ok == Succeeds(respond, |old(log)|, KeyEvent(3))
      ensures log == old(log) + [KeyEvent(3)] && screenSize == old(screenSize)
    {
      ok := PressKey(KeyHome);
    }

    method PressRecent() returns (ok: bool)
      modifies this
      ensures ok == Succeeds(respond, |old(log)|, KeyEvent(187))
      ensures log == old(log) + [KeyEvent(187)] && screenSize == old(screenSize)
    {
      ok := PressKey(KeyRecent);
    }

    method PressEnter() returns (ok: bool)
      modifies this
      ensures ok == Succeeds(respond, |old(log)|, KeyEvent(66))
      ensures log == old(log) + [KeyEvent(66)] && screenSize == old(screenSize)
    {
      ok := PressKey(KeyEnter);
    }

    /** `launch_app`: start the main activity; if that reports an error or prints nothing, try
        `monkey`; then start through the launcher intent. Any raising call ends it with false. */
    method LaunchApp(package: string) returns (ok: bool)
      modifies this
      ensures screenSize == old(screenSize)
      ensures var steps := LaunchSteps(respond, package, |old(log)|);
              log == old(log) + steps.0 && ok == steps.1
    {
      var first := Shell(StartMainActivity(package));
      if first.Raised? {
        return false;
      }
      if StartFailed(first.text) {
        var second := Shell(MonkeyLaunch(package));
        if second.Raised? {
          return false;
        }
      }
      ok := Run(StartLauncher(package));
    }

    method LaunchAppSimple(package: string) returns (ok: bool)
      modifies this
      ensures ok == Succeeds(respond, |old(log)|, MonkeySimple(package))
      ensures log == old(log) + [MonkeySimple(package)] && screenSize == old(screenSize)
    {
      ok := Run(MonkeySimple(package));
    }

    method StopApp(package: string) returns (ok: bool)
      modifies this
      ensures ok == Succeeds(respond, |old(log)|, ForceStop(package))
      ensures log == old(log) + [ForceStop(package)] && screenSize == old(screenSize)
    {
      ok := Run(ForceStop(package));
    }
  }
}
