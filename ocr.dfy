/** The local OCR engine: it reads the bottom band of a screenshot and reports whether the
    ADB Keyboard notice is showing. Tesseract's probe, the image decoder and the OCR call
    are given; the regular-expression search is written out. */
module Ocr {
  import opened Wrappers
  import opened Strings
  import opened JsonValues

  /** `OCRResult`; the defaults are "no keyboard" and no text. */
  datatype OcrResult = OcrResult(keyboardActive: bool, rawText: string)

  /** A decoded picture, by its size. */
  datatype Picture = Picture(width: nat, height: nat)

  /** What `recognize` accepts: PNG bytes, or an already-decoded picture. */
  datatype ImageInput = PngBytes(data: seq<bv8>) | Decoded(picture: Picture)

  /** A crop rectangle: left, upper, right, lower. */
  datatype Box = Box(left: int, upper: int, right: int, lower: int)

  // ---------------------------------------------------------------------------------------
  // Keyboard detection

  /** The text at `k` is `w` when lower-cased (`re.IGNORECASE` on ASCII letters). */
  predicate LowerAt(text: string, k: nat, w: string) {
    k + |w| <= |text| && Lower(text[k..k + |w|]) == w
  }

  /** `ADB\s*<word>` matches the text from `i` to the word at `j`. */
  predicate MatchSpan(text: string, i: nat, j: nat, word: string) {
    i + 3 <= j <= |text| && LowerAt(text, i, "adb") && (forall k :: i + 3 <= k < j ==> IsSpace(text[k])) && LowerAt(text, j, word)
  }

  /** `re.search(r"ADB\s*<word>", text, re.IGNORECASE)` finds something. */
  ghost predicate Mentions(text: string, word: string) {
    exists i: nat, j: nat :: MatchSpan(text, i, j, word)
  }

  /** The notice the detector looks for: "ADB", any whitespace, then "Keyboard" or "Input",
      in any case. */
  ghost predicate KeyboardNotice(text: string) {
    Mentions(text, "keyboard") || Mentions(text, "input")
  }

  /** The first position at or after `k` that is not whitespace. */
  function SkipSpaces(text: string, k: nat): (e: nat)
    requires k <= |text|
    ensures k <= e <= |text|
    ensures forall m :: k <= m < e ==> IsSpace(text[m])
    ensures e < |text| ==> !IsSpace(text[e])
    decreases |text| - k
  {
    if k < |text| && IsSpace(text[k]) then SkipSpaces(text, k + 1) else k
  }

  /** A word that starts with a letter is never preceded by a match ending in whitespace:
      the only place the word can start is where the whitespace run ends. */
  lemma {:induction false} OnlyAtRunEnd(text: string, i: nat, j: nat, word: string)
    requires i + 3 <= |text| && |word| > 0 && !IsSpace(word[0]) && 'a' <= word[0] <= 'z'
    requires MatchSpan(text, i, j, word)
    ensures j == SkipSpaces(text, i + 3)
  {
    var e := SkipSpaces(text, i + 3);
    assert Lower(text[j..j + |word|])[0] == LowerChar(text[j]);
    assert LowerChar(text[j]) == word[0];
    assert !IsSpace(text[j]);
    if j < e {
      assert false;
    } else if j > e {
      assert false;
    }
  }

  /** The search for one pattern, scanning start positions left to right. */
  method Search(text: string, word: string) returns (found: bool)
    requires word == "keyboard" || word == "input"
    ensures found <==> Mentions(text, word)
  {
    var i := 0;
    while i + 3 <= |text|
      invariant 0 <= i
      invariant forall i': nat, j: nat :: i' < i ==> !MatchSpan(text, i', j, word)
    {
      if Lower(text[i..i + 3]) == "adb" {
        var e := SkipSpaces(text, i + 3);
        if LowerAt(text, e, word) {
          assert MatchSpan(text, i, e, word);
          return true;
        }
        forall j: nat ensures !MatchSpan(text, i, j, word) {
          if MatchSpan(text, i, j, word) {
            OnlyAtRunEnd(text, i, j, word);
          }
        }
      }
      i := i + 1;
    }
    return false;
  }

  /** `_detect_keyboard_active`: the three patterns in turn ("ADB\s*Keyboard",
      "adb\s*keyboard", "ADB\s*Input"), any of them matching, ignoring case. */
  method DetectKeyboardActive(text: string) returns (active: bool)
    ensures active <==> KeyboardNotice(text)
  {
    var words := ["keyboard", "keyboard", "input"];
    var p := 0;
    while p < |words|
      invariant 0 <= p <= |words|
      invariant forall q :: 0 <= q < p ==> !Mentions(text, words[q])
    {
      var found := Search(text, words[p]);
      if found {
        return true;
      }
      p := p + 1;
    }
    assert !Mentions(text, words[0]) && !Mentions(text, words[2]);
    return false;
  }

  /** A notice with no space between the words, in upper case, still counts. */
  lemma FusedNoticeDetected()
    ensures KeyboardNotice("ADBKEYBOARD ON")
  {
    var text := "ADBKEYBOARD ON";
    assert Lower(text[0..3]) == "adb";
    assert Lower(text[3..11]) == "keyboard";
    assert MatchSpan(text, 0, 3, "keyboard");
  }

  /** Text without the letters "adb" never signals the keyboard. */
  lemma NoAdbNoNotice(text: string)
    requires forall i: nat :: !LowerAt(text, i, "adb")
    ensures !KeyboardNotice(text)
  {
    forall i: nat, j: nat, word | word == "keyboard" || word == "input" ensures !MatchSpan(text, i, j, word) {
      assert !LowerAt(text, i, "adb");
    }
  }

  /** The rows the OCR reads: the full width, from 150 rows above the bottom (or the top of
      a shorter picture) down to the bottom. */
  function BottomBand(p: Picture): (b: Box)
    ensures b.left == 0 && b.right == p.width && b.lower == p.height
    ensures b.lower - b.upper == if p.height >= 150 then 150 else p.height
  {
    Box(0, if p.height - 150 > 0 then p.height - 150 else 0, p.width, p.height)
  }

  /** The line `get_screen_context` adds to the prompt when the keyboard is up. */
  const KeyboardLine := "📱 状态: 输入框已激活 (ADB Keyboard 已弹出，可以直接输入文本)"

  class OcrEngine {
    /** `_tesseract_available`: unknown until the first probe. */
    var tesseractAvailable: Option<bool>
    /** How many times tesseract has been probed. */
    ghost var probes: nat
    /** Whether the probe succeeds, the PNG decoder (`None` when it raises), and the OCR of a
        region (`None` when it raises). */
    const probe: bool
    const decode: seq<bv8> -> Option<Picture>
    const ocr: (Picture, Box) -> Option<string>

    /** The probe has run exactly when its result is cached, so it runs at most once. */
    ghost predicate Valid()
      reads this
    {
      probes == (if tesseractAvailable.Some? then 1 else 0)
      && (tesseractAvailable.Some? ==> tesseractAvailable.value == probe)
    }

    constructor (probe: bool, decode: seq<bv8> -> Option<Picture>, ocr: (Picture, Box) -> Option<string>)
      ensures Valid() && tesseractAvailable == None
      ensures this.probe == probe && this.decode == decode && this.ocr == ocr
    {
      this.probe := probe;
      this.decode := decode;
      this.ocr := ocr;
      tesseractAvailable := None;
      probes := 0;
    }

    /** `_check_tesseract` */
    method CheckTesseract() returns (available: bool)
      requires Valid()
      modifies this
      ensures Valid() && available == probe && tesseractAvailable == Some(probe)
      ensures probes == 1
      ensures old(tesseractAvailable).Some? ==> probes == old(probes)
    {
      if tesseractAvailable.Some? {
        return tesseractAvailable.value;
      }
      probes := probes + 1;
      tesseractAvailable := Some(probe);
      available := probe;
    }

    /** The result `recognize` computes once tesseract is known to be there: an image that
        cannot be decoded raises, OCR that raises gives the empty result. */
    function Recognized(image: ImageInput): (r: Result<OcrResult, PyError>)
      ensures r.Err? <==> image.PngBytes? && decode(image.data).None?
      ensures r.Err? ==> r.error == OSError
      ensures r.Ok? && r.value.keyboardActive ==> KeyboardNoticeIn(r.value.rawText)
      ensures r.Ok? && r.value.rawText == "" ==> !r.value.keyboardActive
    {
      var picture := if image.PngBytes? then decode(image.data) else Some(image.picture);
      if picture.None? then Err(OSError)
      else
        var text := ocr(picture.value, BottomBand(picture.value));
        if text.None? then Ok(OcrResult(false, ""))
        else Ok(OcrResult(KeyboardNoticeIn(text.value), text.value))
    }

    /** `recognize` */
    method Recognize(image: ImageInput) returns (r: Result<OcrResult, PyError>)
      requires Valid()
      modifies this
      ensures Valid() && probes == 1
      ensures !probe ==> r == Ok(OcrResult(false, ""))
      ensures probe ==> r == Recognized(image)
    {
      var available := CheckTesseract();
      if !available {
        return Ok(OcrResult(false, ""));
      }
      var picture: Picture;
      if image.PngBytes? {
        var decoded := decode(image.data);
        if decoded.None? {
          return Err(OSError);
        }
        picture := decoded.value;
      } else {
        picture := image.picture;
      }
      var band := BottomBand(picture);
      var text := ocr(picture, band);
      if text.None? {
        return Ok(OcrResult(false, ""));
      }
      var active := DetectKeyboardActive(text.value);
      KeyboardNoticeInIs(text.value);
      r := Ok(OcrResult(active, text.value));
    }

    /** `get_screen_context`: the keyboard line exactly when the keyboard is detected. */
    method GetScreenContext(image: ImageInput) returns (r: Result<string, PyError>)
      requires Valid()
      modifies this
      ensures Valid() && probes == 1
      ensures var recognized := if probe then Recognized(image) else Ok(OcrResult(false, ""));
        && (recognized.Err? ==> r == Err(recognized.error))
        && (recognized.Ok? ==> r == Ok(if recognized.value.keyboardActive then KeyboardLine else ""))
    {
      var result := Recognize(image);
      if result.Err? {
        return Err(result.error);
      }
      r := Ok(if result.value.keyboardActive then KeyboardLine else "");
    }
  }

  /** `KeyboardNotice` as a compiled test, for `Recognized`. */
  function KeyboardNoticeIn(text: string): bool {
    HasNoticeFrom(text, 0, "keyboard") || HasNoticeFrom(text, 0, "input")
  }

  /** A match for `word` starting at `i` or later. */
  function HasNoticeFrom(text: string, i: nat, word: string): bool
    decreases |text| - i
  {
    if i + 3 > |text| then false
    else (LowerAt(text, i, "adb") && LowerAt(text, SkipSpaces(text, i + 3), word)) || HasNoticeFrom(text, i + 1, word)
  }

  /** A match starts at `i` exactly when "adb" is there and the word follows the spaces. */
  lemma MatchHere(text: string, i: nat, word: string)
    requires word == "keyboard" || word == "input"
    requires i + 3 <= |text|
    ensures (LowerAt(text, i, "adb") && LowerAt(text, SkipSpaces(text, i + 3), word)) <==> exists j: nat :: MatchSpan(text, i, j, word)
  {
    var e := SkipSpaces(text, i + 3);
    if LowerAt(text, i, "adb") && LowerAt(text, e, word) {
      assert MatchSpan(text, i, e, word);
    }
    forall j: nat | MatchSpan(text, i, j, word) ensures LowerAt(text, i, "adb") && LowerAt(text, e, word) {
      OnlyAtRunEnd(text, i, j, word);
    }
  }

  lemma {:induction false} HasNoticeFromIs(text: string, i: nat, word: string)
    requires word == "keyboard" || word == "input"
    ensures HasNoticeFrom(text, i, word) <==> exists i': nat, j: nat :: i <= i' && MatchSpan(text, i', j, word)
    decreases |text| - i
  {
    if i + 3 <= |text| {
      HasNoticeFromIs(text, i + 1, word);
      MatchHere(text, i, word);
      if !HasNoticeFrom(text, i, word) {
        forall i': nat, j: nat | i <= i' ensures !MatchSpan(text, i', j, word) {
          if i' == i {
            assert !exists j: nat :: MatchSpan(text, i, j, word);
          }
        }
      }
    } else {
      forall i': nat, j: nat | i <= i' ensures !MatchSpan(text, i', j, word) {
      }
    }
  }

  /** The compiled test and the definition agree. */
  lemma KeyboardNoticeInIs(text: string)
    ensures KeyboardNoticeIn(text) <==> KeyboardNotice(text)
  {
    HasNoticeFromIs(text, 0, "keyboard");
    HasNoticeFromIs(text, 0, "input");
  }
}
