/** Reading the CAPTCHA (module/ocrdemo.py): up to three attempts, each running tesseract
    with three page-segmentation configurations on the preprocessed image and keeping the
    word with the greatest confidence; the first attempt whose word is a short digit string
    wins. The image processing and tesseract itself are given as their results. */
module Ocr {
  import opened Wrappers
  import opened Text

  /** The three tesseract configurations, tried in this order in every attempt. */
  const Configs: seq<string> := [
    "--psm 8 --oem 3 -c tessedit_char_whitelist=0123456789",
    "--psm 10 --oem 3 -c tessedit_char_whitelist=0123456789",
    "--psm 7 --oem 3 -c tessedit_char_whitelist=0123456789"
  ]

  /** `solve_captcha_image`'s default `max_attempts`. */
  const MaxAttempts: nat := 3

  /** The longest answer accepted. */
  const MaxLength: nat := 6

  /** One word of `image_to_data`'s output: its text and `int(conf)` (-1 for boxes without text). */
  datatype Token = Token(text: string, conf: int)

  /** One `image_to_data` call: its words in output order, or an exception. */
  datatype OcrCall = Data(tokens: seq<Token>) | OcrFailed

  /** `best_text` and `best_confidence`. */
  datatype Best = Best(text: string, conf: int)

  /** The running choice after one more word: it replaces the best only with a strictly
      greater confidence and some text once stripped. */
  function Consider(b: Best, t: Token): Best {
    if t.conf > b.conf && Strip(t.text) != "" then Best(Strip(t.text), t.conf) else b
  }

  /** The choice after the words `ts`, starting from `("", 0)`. */
  function Select(ts: seq<Token>): Best {
    if ts == [] then Best("", 0) else Consider(Select(ts[..|ts| - 1]), ts[|ts| - 1])
  }

  /** The choice after the words `ts`, starting from the running best `b`. */
  function Fold(b: Best, ts: seq<Token>): Best {
    if ts == [] then b else Consider(Fold(b, ts[..|ts| - 1]), ts[|ts| - 1])
  }

  /** A word that can be chosen at all: positive confidence and text once stripped. */
  predicate Eligible(t: Token) {
    t.conf > 0 && Strip(t.text) != ""
  }

  /** Word k has the greatest confidence among the eligible words, and every eligible word
      before it has a smaller one: it is the first of the most confident. */
  predicate EarliestMax(ts: seq<Token>, k: int) {
    && 0 <= k < |ts| && Eligible(ts[k])
    && (forall j :: 0 <= j < |ts| && Eligible(ts[j]) ==> ts[j].conf <= ts[k].conf)
    && (forall j :: 0 <= j < k && Eligible(ts[j]) ==> ts[j].conf < ts[k].conf)
  }

  /** Taking one more word into account. */
  lemma SelectSnoc(ts: seq<Token>, t: Token)
    ensures Select(ts + [t]) == Consider(Select(ts), t)
  {
    assert (ts + [t])[..|ts|] == ts;
  }

  /** Running on from the choice after `ws` over the words `ts` is choosing over `ws + ts`. */
  lemma {:induction false} SelectThenFold(ws: seq<Token>, ts: seq<Token>)
    ensures Fold(Select(ws), ts) == Select(ws + ts)
  {
    if ts == [] {
      assert ws + ts == ws;
    } else {
      var n := |ts| - 1;
      SelectThenFold(ws, ts[..n]);
      PrefixSnoc(ts, n);
      assert ts[..n + 1] == ts;
      AppendAssoc(ws, ts[..n], [ts[n]]);
      SelectSnoc(ws + ts[..n], ts[n]);
    }
  }

  /** The chosen confidence is at least that of every eligible word, and never negative. */
  lemma {:induction false} SelectBound(ts: seq<Token>)
    ensures Select(ts).conf >= 0
    ensures forall j :: 0 <= j < |ts| && Eligible(ts[j]) ==> ts[j].conf <= Select(ts).conf
  {
    if ts != [] {
      var p, t := ts[..|ts| - 1], ts[|ts| - 1];
      assert ts == p + [t];
      SelectBound(p);
      SelectSnoc(p, t);
      forall j | 0 <= j < |ts| && Eligible(ts[j]) ensures ts[j].conf <= Select(ts).conf {
        if j < |p| { assert ts[j] == p[j]; }
      }
    }
  }

  /** The choice stays at `("", 0)` exactly when no word is eligible. */
  lemma {:induction false} SelectNone(ts: seq<Token>)
    ensures Select(ts) == Best("", 0) <==> forall j :: 0 <= j < |ts| ==> !Eligible(ts[j])
  {
    if ts != [] {
      var p, t := ts[..|ts| - 1], ts[|ts| - 1];
      assert ts == p + [t];
      SelectNone(p);
      SelectBound(p);
      SelectSnoc(p, t);
      assert forall j :: 0 <= j < |p| ==> ts[j] == p[j];
      if Select(p) != Best("", 0) {
        assert Select(ts).conf >= Select(p).conf > 0 || Select(p).text != "";
      }
    }
  }

  /** The selection picks the earliest of the most confident eligible words, stripped. */
  lemma {:induction false} SelectEarliestMax(ts: seq<Token>)
    ensures Select(ts) != Best("", 0) ==>
              exists k :: EarliestMax(ts, k) && Select(ts) == Best(Strip(ts[k].text), ts[k].conf)
  {
    if ts != [] {
      var p, t := ts[..|ts| - 1], ts[|ts| - 1];
      assert ts == p + [t];
      SelectEarliestMax(p);
      SelectBound(p);
      SelectBound(ts);
      SelectSnoc(p, t);
      var b := Select(p);
      if t.conf > b.conf && Strip(t.text) != "" {
        forall j | 0 <= j < |p| && Eligible(ts[j]) ensures ts[j].conf < t.conf {
          assert ts[j] == p[j];
        }
        assert EarliestMax(ts, |p|);
      } else if b != Best("", 0) {
        var k :| EarliestMax(p, k) && b == Best(Strip(p[k].text), p[k].conf);
        assert ts[k] == p[k];
        forall j | 0 <= j < k && Eligible(ts[j]) ensures ts[j].conf < ts[k].conf {
          assert ts[j] == p[j];
        }
        assert EarliestMax(ts, k);
      }
    }
  }

  /** The words of the calls, one call after another. */
  function Words(calls: seq<OcrCall>): seq<Token> {
    if calls == [] then []
    else Words(calls[..|calls| - 1]) + (if calls[|calls| - 1].Data? then calls[|calls| - 1].tokens else [])
  }

  lemma WordsSnoc(calls: seq<OcrCall>, c: OcrCall)
    ensures Words(calls + [c]) == Words(calls) + (if c.Data? then c.tokens else [])
  {
    assert (calls + [c])[..|calls|] == calls;
  }

  /** Every call returned data. */
  predicate AllRead(calls: seq<OcrCall>) {
    forall c :: 0 <= c < |calls| ==> calls[c].Data?
  }

  /** What one attempt gives: its `best_text` when every call returned, `None` when one
      raised. The choice runs on across the configurations and starts afresh every attempt. */
  function AttemptText(imageLoads: bool, calls: seq<OcrCall>): Option<string> {
    if imageLoads && AllRead(calls) then Some(Select(Words(calls)).text) else None
  }

  /** `best_text.isdigit() and 0 <= len(best_text) <= 6`. */
  predicate Accepted(text: string) {
    IsDecimal(text) && 0 <= |text| <= MaxLength
  }

  /** The three calls of attempt `a`. */
  function CallsOf(ocr: nat -> nat -> OcrCall, a: nat): (calls: seq<OcrCall>)
    ensures |calls| == |Configs|
  {
    [ocr(a)(0), ocr(a)(1), ocr(a)(2)]
  }

  /** The answer of attempts `a` to `maxAttempts - 1`: the first accepted text, or "". */
  function Solve(imageLoads: nat -> bool, ocr: nat -> nat -> OcrCall, maxAttempts: nat, a: nat): string
    decreases maxAttempts - a
  {
    if a >= maxAttempts then ""
    else
      var t := AttemptText(imageLoads(a), CallsOf(ocr, a));
      if t.Some? && Accepted(t.value) then t.value else Solve(imageLoads, ocr, maxAttempts, a + 1)
  }

  /** The answer is the text of the first attempt that gave an accepted one, and "" only when
      no attempt did. */
  lemma {:induction false} SolveFirstAccepted(imageLoads: nat -> bool, ocr: nat -> nat -> OcrCall, maxAttempts: nat, a: nat)
    ensures var r := Solve(imageLoads, ocr, maxAttempts, a);
      r == "" || Accepted(r)
    ensures Solve(imageLoads, ocr, maxAttempts, a) == "" <==>
              forall b :: a <= b < maxAttempts ==>
                AttemptText(imageLoads(b), CallsOf(ocr, b)).None? || !Accepted(AttemptText(imageLoads(b), CallsOf(ocr, b)).value)
    decreases maxAttempts - a
  {
    if a < maxAttempts {
      SolveFirstAccepted(imageLoads, ocr, maxAttempts, a + 1);
    }
  }

  /** An answer is never empty: it is one to six digits. */
  lemma AcceptedShape(text: string)
    requires Accepted(text)
    ensures 1 <= |text| <= MaxLength && forall i :: 0 <= i < |text| ==> IsDigit(text[i])
  {
  }

  /** The body of the inner loop: one word against the running best. */
  method ConsiderWord(text: string, conf: int, word: Token) returns (bestText: string, bestConf: int)
    ensures Best(bestText, bestConf) == Consider(Best(text, conf), word)
  {
    bestText, bestConf := text, conf;
    var stripped := Strip(word.text);
    if word.conf > conf && stripped != "" {
      bestConf := word.conf;
      bestText := stripped;
    }
  }

  /** The inner loop over one call's words, running on from the best so far. */
  method ScanWords(text: string, conf: int, tokens: seq<Token>) returns (bestText: string, bestConf: int)
    ensures Best(bestText, bestConf) == Fold(Best(text, conf), tokens)
  {
    bestText, bestConf := text, conf;
    var i := 0;
    while i < |tokens|
      invariant 0 <= i <= |tokens|
      invariant Best(bestText, bestConf) == Fold(Best(text, conf), tokens[..i])
    {
      assert tokens[..i + 1][..i] == tokens[..i];
      bestText, bestConf := ConsiderWord(bestText, bestConf, tokens[i]);
      i := i + 1;
    }
    assert tokens[..i] == tokens;
  }

  /** One attempt's loop over the configurations: every call's words are scanned in order
      and the choice runs on from one call to the next; an exception from a call ends the
      attempt. */
  method ReadAttempt(calls: seq<OcrCall>) returns (r: Option<string>)
    ensures r == AttemptText(true, calls)
  {
    var bestText := "";
    var bestConf := 0;
    var c := 0;
    while c < |calls|
      invariant 0 <= c <= |calls|
      invariant AllRead(calls[..c])
      invariant Best(bestText, bestConf) == Select(Words(calls[..c]))
    {
      if calls[c].OcrFailed? {
        assert !AllRead(calls);
        return None;
      }
      bestText, bestConf := ScanWords(bestText, bestConf, calls[c].tokens);
      SelectThenFold(Words(calls[..c]), calls[c].tokens);
      WordsSnoc(calls[..c], calls[c]);
      assert calls[..c + 1] == calls[..c] + [calls[c]];
      c := c + 1;
    }
    assert calls[..c] == calls;
    return Some(bestText);
  }

  /** `solve_captcha_image(path, max_attempts)`: attempts in order, each loading the image
      (`imageLoads(a)`) and making its three tesseract calls (`ocr(a)(c)`); the first accepted
      text is returned, an exception only ends its own attempt, and after `maxAttempts`
      attempts the answer is "". The alternative image made after the second attempt is
      replaced before it is ever read, so it has no part here. */
  method SolveCaptchaImage(imageLoads: nat -> bool, ocr: nat -> nat -> OcrCall, maxAttempts: nat)
    returns (r: string, attempts: nat)
    ensures r == Solve(imageLoads, ocr, maxAttempts, 0)
    ensures attempts <= maxAttempts
    ensures r == "" || Accepted(r)
  {
    var a := 0;
    while a < maxAttempts
      invariant 0 <= a <= maxAttempts
      invariant Solve(imageLoads, ocr, maxAttempts, 0) == Solve(imageLoads, ocr, maxAttempts, a)
    {
      if imageLoads(a) {
        var t := ReadAttempt(CallsOf(ocr, a));
        if t.Some? && Accepted(t.value) {
          return t.value, a + 1;
        }
      }
      a := a + 1;
    }
    return "", maxAttempts;
  }

  /** `solve_captcha(driver)`: screenshot the CAPTCHA element and read it; any exception
      while saving the screenshot gives "". */
  method SolveCaptcha(screenshotSaved: bool, imageLoads: nat -> bool, ocr: nat -> nat -> OcrCall)
    returns (r: string)
    ensures !screenshotSaved ==> r == ""
    ensures screenshotSaved ==> r == Solve(imageLoads, ocr, MaxAttempts, 0)
    ensures r == "" || Accepted(r)
  {
    if !screenshotSaved {
      return "";
    }
    var attempts;
    r, attempts := SolveCaptchaImage(imageLoads, ocr, MaxAttempts);
  }
}
