/**
 * The page rules of the PDF analyzer (lib/pdf_analyzer.py): the text-length
 * rule that recommends an extraction method, the keyword scores, the
 * tabular-structure and part-number signals, and the four-branch decision
 * that marks a page as a product page.  Everything here is a pure function
 * of a page's text.
 */
module PageClassifier {
  import opened TextUtil

  /**
   * A page record as produced by the PDF collaborator: 1-based page number,
   * raw text, and whether the record carries a `temp_image_path`.
   */
  datatype Page = Page(pageNumber: int, rawText: string, hasTempImage: bool)

  datatype ExtractionMethod = TextMethod | HybridMethod | VisionMethod

  datatype Confidence = Low | Medium | High

  /** One entry of `get_extraction_strategy`; `textLength` is the number the reason text reports. */
  datatype Strategy = Strategy(page: int, extraction: ExtractionMethod, confidence: Confidence, textLength: nat)

  /** One entry of `detect_product_data_pages`. */
  datatype Analysis = Analysis(
    page: int,
    isProductPage: bool,
    confidence: Confidence,
    productScore: nat,
    introScore: nat,
    hasTabularData: bool,
    hasPartNumbers: bool,
    textLength: nat)

  datatype Verdict = Verdict(isProductPage: bool, confidence: Confidence)

  // ---------------------------------------------------------------------
  // extraction method by text length
  // ---------------------------------------------------------------------

  /** The method recommended for one page, from the length of its stripped text. */
  function StrategyFor(page: Page): (s: Strategy)
    ensures s.page == page.pageNumber && s.textLength == |Strip(page.rawText)|
    ensures s.extraction == TextMethod <==> |Strip(page.rawText)| > 100
    ensures s.extraction == HybridMethod <==> 20 < |Strip(page.rawText)| <= 100
    ensures s.extraction == VisionMethod <==> |Strip(page.rawText)| <= 20
    ensures s.confidence == (if s.extraction == HybridMethod then Medium else High)
  {
    var n := |Strip(page.rawText)|;
    if n > 100 then Strategy(page.pageNumber, TextMethod, High, n)
    else if n > 20 then Strategy(page.pageNumber, HybridMethod, Medium, n)
    else Strategy(page.pageNumber, VisionMethod, High, n)
  }

  /** How much a method leans on the page image: text 0, hybrid 1, vision 2. */
  function VisionReliance(m: ExtractionMethod): nat {
    match m
    case TextMethod => 0
    case HybridMethod => 1
    case VisionMethod => 2
  }

  /** More text never makes the recommendation lean more on the image. */
  lemma StrategyMonotone(p: Page, q: Page)
    requires |Strip(p.rawText)| <= |Strip(q.rawText)|
    ensures VisionReliance(StrategyFor(q).extraction) <= VisionReliance(StrategyFor(p).extraction)
  {
  }

  /** The coarser rule of `detect_tables_and_images`: text iff more than 50 stripped characters. */
  function TablesMethod(rawText: string): (m: ExtractionMethod)
    ensures m == TextMethod <==> |Strip(rawText)| > 50
    ensures m != HybridMethod
  {
    if |Strip(rawText)| > 50 then TextMethod else VisionMethod
  }

  /**
   * The two length rules agree at the extremes: a page recommended `text` by
   * the strategy rule is `text` for the tables rule, a `vision` page is
   * `vision` for both, and pages where they differ are the `hybrid` ones.
   */
  lemma LengthRulesAgree(p: Page)
    ensures StrategyFor(p).extraction == TextMethod ==> TablesMethod(p.rawText) == TextMethod
    ensures StrategyFor(p).extraction == VisionMethod ==> TablesMethod(p.rawText) == VisionMethod
    ensures StrategyFor(p).extraction != TablesMethod(p.rawText) ==> StrategyFor(p).extraction == HybridMethod
  {
  }

  // ---------------------------------------------------------------------
  // keyword scores
  // ---------------------------------------------------------------------

  const ProductIndicators: seq<string> := [
    "model", "years", "specification", "part", "inner", "outer", "side",
    "left", "right", "front", "rear", "fitment", "86-", "87-", "88-", "89-",
    "toyota", "honda", "ford", "chevrolet", "nissan", "acura", "lexus",
    "mazda", "subaru", "volkswagen"]

  const IntroIndicators: seq<string> := [
    "table of contents", "introduction", "warning", "copyright", "how to use",
    "installation", "technical information", "about this catalog", "index",
    "notes"]

  /** Which indicators occur in the text, position by position. */
  function Hits(indicators: seq<string>, text: string): (hits: seq<bool>)
    ensures |hits| == |indicators|
  {
    seq(|indicators|, i requires 0 <= i < |indicators| => Contains(text, indicators[i]))
  }

  function CountTrue(bs: seq<bool>): (n: nat)
    ensures n <= |bs|
  {
    if |bs| == 0 then 0 else (if bs[0] then 1 else 0) + CountTrue(bs[1..])
  }

  /** How many of the indicators occur in the text (each counted once, however often it occurs). */
  function CountPresent(indicators: seq<string>, text: string): (n: nat)
    ensures n <= |indicators|
  {
    CountTrue(Hits(indicators, text))
  }

  /** The score walks the indicator list from its head. */
  lemma CountPresentCons(indicators: seq<string>, text: string)
    requires |indicators| > 0
    ensures CountPresent(indicators, text)
         == (if Contains(text, indicators[0]) then 1 else 0) + CountPresent(indicators[1..], text)
  {
    var hits := Hits(indicators, text);
    assert hits[1..] == Hits(indicators[1..], text);
  }

  predicate Distinct(xs: seq<string>) {
    forall i, j :: 0 <= i < j < |xs| ==> xs[i] != xs[j]
  }

  /** For a list without repeats, the score is the number of distinct indicators found. */
  lemma {:induction false} CountIsDistinctHits(indicators: seq<string>, text: string)
    requires Distinct(indicators)
    ensures CountPresent(indicators, text) == |set w | w in indicators && Contains(text, w)|
    decreases |indicators|
  {
    if |indicators| > 0 {
      var rest := indicators[1..];
      assert Distinct(rest) by {
        forall i, j | 0 <= i < j < |rest| ensures rest[i] != rest[j] {
          assert rest[i] == indicators[i + 1] && rest[j] == indicators[j + 1];
        }
      }
      CountIsDistinctHits(rest, text);
      CountPresentCons(indicators, text);
      var tail := set w | w in rest && Contains(text, w);
      var all := set w | w in indicators && Contains(text, w);
      assert indicators[0] !in rest by {
        forall j | 0 <= j < |rest| ensures rest[j] != indicators[0] {
          assert rest[j] == indicators[j + 1];
        }
      }
      assert indicators == [indicators[0]] + rest;
      if Contains(text, indicators[0]) {
        assert all == {indicators[0]} + tail;
      } else {
        assert all == tail;
      }
    }
  }

  /** A text that contains another scores at least as high on any indicator list. */
  lemma {:induction false} ScoreMonotone(indicators: seq<string>, inner: string, outer: string)
    requires Contains(outer, inner)
    ensures CountPresent(indicators, inner) <= CountPresent(indicators, outer)
    decreases |indicators|
  {
    if |indicators| > 0 {
      if Contains(inner, indicators[0]) {
        ContainsTrans(indicators[0], inner, outer);
      }
      ScoreMonotone(indicators[1..], inner, outer);
      CountPresentCons(indicators, inner);
      CountPresentCons(indicators, outer);
    }
  }

  // ---------------------------------------------------------------------
  // tabular structure and part numbers
  // ---------------------------------------------------------------------

  /** The line mentions one of the part-number prefixes "86-" or "87-". */
  predicate HasPartPrefix(line: string) {
    Contains(line, "86-") || Contains(line, "87-")
  }

  /** How many words are digits once their hyphens are removed. */
  function NumericWordCount(words: seq<string>): (n: nat)
    ensures n <= |words|
  {
    if |words| == 0 then 0
    else (if IsDigits(RemoveAll(words[0], "-")) then 1 else 0) + NumericWordCount(words[1..])
  }

  /**
   * The points one stripped line adds: one for a "..." leader (the source's
   * extra test that splitting at "..." gives more than one piece holds
   * whenever the line contains "..."), one for three or more numeric words,
   * and one for a part-number prefix.
   */
  function LinePoints(line: string): (n: nat)
    ensures n <= 3
    ensures line == "" ==> n == 0
    ensures line != "" && HasPartPrefix(line) ==> n >= 1
  {
    if line == "" then 0
    else
      (if Contains(line, "...") then 1 else 0)
      + (if NumericWordCount(Words(line)) >= 3 then 1 else 0)
      + (if HasPartPrefix(line) then 1 else 0)
  }

  /** The running total of `_detect_tabular_structure` over the given lines. */
  function TabularIndicators(lines: seq<string>): nat {
    if |lines| == 0 then 0
    else TabularIndicators(lines[..|lines| - 1]) + LinePoints(Strip(lines[|lines| - 1]))
  }

  predicate Tabular(text: string) {
    TabularIndicators(Split(text, '\n')) >= 5
  }

  function NonBlankCount(lines: seq<string>): nat {
    if |lines| == 0 then 0
    else NonBlankCount(lines[..|lines| - 1]) + (if Strip(lines[|lines| - 1]) == "" then 0 else 1)
  }

  function PartNumberLineCount(lines: seq<string>): nat {
    if |lines| == 0 then 0
    else PartNumberLineCount(lines[..|lines| - 1]) + (if HasPartPrefix(lines[|lines| - 1]) then 1 else 0)
  }

  /** More than two lines mention a part-number prefix. */
  predicate HasPartNumbers(text: string) {
    PartNumberLineCount(Split(text, '\n')) > 2
  }

  /** Each non-blank line adds at most three points, so a tabular page has at least two non-blank lines. */
  lemma {:induction false} TabularBound(lines: seq<string>)
    ensures TabularIndicators(lines) <= 3 * NonBlankCount(lines)
    decreases |lines|
  {
    if |lines| > 0 {
      TabularBound(lines[..|lines| - 1]);
    }
  }

  /** A line with a part-number prefix keeps it when stripped, so it scores a point. */
  lemma PartLinePoint(line: string)
    requires HasPartPrefix(line)
    ensures LinePoints(Strip(line)) >= 1
  {
    assert NoSpace("86-") && NoSpace("87-");
    if Contains(line, "86-") {
      StripKeepsWord(line, "86-");
    } else {
      StripKeepsWord(line, "87-");
    }
    assert HasPartPrefix(Strip(line));
    assert |Strip(line)| >= 3;
  }

  /** Every line with a part-number prefix adds at least one tabular point. */
  lemma {:induction false} PartLinesAreTabularPoints(lines: seq<string>)
    ensures PartNumberLineCount(lines) <= TabularIndicators(lines)
    decreases |lines|
  {
    if |lines| > 0 {
      PartLinesAreTabularPoints(lines[..|lines| - 1]);
      var last := lines[|lines| - 1];
      if HasPartPrefix(last) {
        PartLinePoint(last);
      }
    }
  }

  // ---------------------------------------------------------------------
  // the decision
  // ---------------------------------------------------------------------

  /** The four branches, tried in order; each confidence level is characterised outright. */
  function Decide(tabular: bool, partNumbers: bool, productScore: nat, introScore: nat, strippedLength: nat): (v: Verdict)
    ensures (v.confidence == High && v.isProductPage) <==> tabular && partNumbers
    ensures v.confidence == Medium <==> !(tabular && partNumbers) && productScore > introScore && productScore >= 3
    ensures (v.confidence == High && !v.isProductPage) <==> !(tabular && partNumbers) && introScore > productScore
    ensures v.confidence == Medium ==> v.isProductPage
    ensures v.confidence == Low ==> (v.isProductPage <==> strippedLength > 500)
  {
    if tabular && partNumbers then Verdict(true, High)
    else if productScore > introScore && productScore >= 3 then Verdict(true, Medium)
    else if introScore > productScore then Verdict(false, High)
    else Verdict(strippedLength > 500, Low)
  }

  /** The analysis of one page, on its lower-cased text. */
  function Analyze(page: Page): (a: Analysis)
    ensures a.page == page.pageNumber
    ensures a.productScore <= 26 && a.introScore <= 10
    ensures a.textLength == |page.rawText|
    ensures a.hasTabularData == Tabular(Lower(page.rawText))
    ensures a.hasPartNumbers == HasPartNumbers(Lower(page.rawText))
    ensures a.productScore == CountPresent(ProductIndicators, Lower(page.rawText))
    ensures a.introScore == CountPresent(IntroIndicators, Lower(page.rawText))
    ensures Verdict(a.isProductPage, a.confidence)
         == Decide(a.hasTabularData, a.hasPartNumbers, a.productScore, a.introScore, |Strip(Lower(page.rawText))|)
  {
    var text := Lower(page.rawText);
    var productScore := CountPresent(ProductIndicators, text);
    var introScore := CountPresent(IntroIndicators, text);
    var tabular := Tabular(text);
    var partNumbers := HasPartNumbers(text);
    var v := Decide(tabular, partNumbers, productScore, introScore, |Strip(text)|);
    Analysis(page.pageNumber, v.isProductPage, v.confidence, productScore, introScore,
             tabular, partNumbers, |text|)
  }

  /**
   * A page with five or more part-number lines is tabular and has part
   * numbers, so it is a product page with high confidence whatever its
   * keyword scores.
   */
  lemma PartHeavyPageIsProduct(page: Page)
    requires PartNumberLineCount(Split(Lower(page.rawText), '\n')) >= 5
    ensures Analyze(page).isProductPage && Analyze(page).confidence == High
  {
    PartLinesAreTabularPoints(Split(Lower(page.rawText), '\n'));
  }

  /** A page whose boilerplate outscores its product keywords is rejected unless the tabular branch fires first. */
  lemma IntroPageIsRejected(page: Page)
    requires Analyze(page).introScore > Analyze(page).productScore
    requires !(Analyze(page).hasTabularData && Analyze(page).hasPartNumbers)
    ensures !Analyze(page).isProductPage && Analyze(page).confidence == High
  {
  }

  /** A tabular page has at least two non-blank lines. */
  lemma TabularNeedsTwoLines(text: string)
    requires Tabular(text)
    ensures NonBlankCount(Split(text, '\n')) >= 2
  {
    TabularBound(Split(text, '\n'));
  }
}
