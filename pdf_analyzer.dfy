/**
 * The stateful side of the PDF analyzer (lib/pdf_analyzer.py): an `Analyzer`
 * holds the opened document, the per-page records, the joined full text and
 * the page images present in its temporary directory.  The document itself
 * is a sequence of page texts handed in by the PDF collaborator.
 */
module PdfAnalyzer {
  import opened Wrappers
  import opened TextUtil
  import opened PageClassifier
  import opened Seqs

  datatype PdfInfo = PdfInfo(pageCount: nat)

  datatype RenderError = NotLoaded | InvalidPageNumber | SaveFailed

  /** One entry of `detect_tables_and_images`. */
  datatype PageElements = PageElements(
    pageNumber: int,
    textLength: nat,
    hasSubstantialText: bool,
    extraction: ExtractionMethod)

  /** The page records of a document, numbered from 1 in document order. */
  function PagesOf(texts: seq<string>): (pages: seq<Page>)
    ensures |pages| == |texts|
    ensures forall i :: 0 <= i < |texts| ==> pages[i] == Page(i + 1, texts[i], false)
  {
    seq(|texts|, i requires 0 <= i < |texts| => Page(i + 1, texts[i], false))
  }

  /**
   * The page limit of `detect_tables_and_images`: `max_pages` applies only
   * when it is given, non-zero and below the page count.  A negative limit
   * is kept as it is, and `range` of it then processes no page.
   */
  function PageLimit(maxPages: Option<int>, total: nat): (n: int)
    ensures n <= total
    ensures maxPages.None? || maxPages.value == 0 || maxPages.value >= total ==> n == total
    ensures maxPages.Some? && 0 < maxPages.value < total ==> n == maxPages.value
    ensures maxPages.Some? && maxPages.value < 0 ==> n == maxPages.value
  {
    if maxPages.Some? && maxPages.value != 0 && maxPages.value < total then maxPages.value else total
  }

  /** How many pages `range(PageLimit(...))` visits. */
  function PagesVisited(limit: int): nat {
    if limit < 0 then 0 else limit
  }

  /** The image files `page_1.png` .. `page_n.png`, by page number. */
  function FirstPages(n: nat): (s: set<int>)
    ensures forall k :: k in s <==> 1 <= k <= n
  {
    if n == 0 then {} else FirstPages(n - 1) + {n}
  }

  function ElementFor(index: nat, rawText: string): (e: PageElements)
    ensures e.pageNumber == index + 1
    ensures e.textLength == |Strip(rawText)|
    ensures e.hasSubstantialText <==> |Strip(rawText)| > 50
    ensures e.extraction == TablesMethod(rawText)
    ensures e.hasSubstantialText <==> e.extraction == TextMethod
  {
    var n := |Strip(rawText)|;
    PageElements(index + 1, n, n > 50, TablesMethod(rawText))
  }

  /** `_detect_tabular_structure`: sums the points of the non-blank stripped lines. */
  method DetectTabularStructure(text: string) returns (tabular: bool)
    ensures tabular == Tabular(text)
  {
    var lines := Split(text, '\n');
    var indicators: nat := 0;
    for i := 0 to |lines|
      invariant indicators == TabularIndicators(lines[..i])
    {
      assert lines[..i + 1][..i] == lines[..i];
      var line := Strip(lines[i]);
      if line == "" {
        continue;
      }
      if Contains(line, "...") {
        indicators := indicators + 1;
      }
      var numbers := NumericWordCount(Words(line));
      if numbers >= 3 {
        indicators := indicators + 1;
      }
      if Contains(line, "86-") || Contains(line, "87-") {
        indicators := indicators + 1;
      }
    }
    assert lines[..|lines|] == lines;
    tabular := indicators >= 5;
  }

  /** The analyses of a run of page records, in order. */
  function AnalyzeAll(pages: seq<Page>): (r: seq<Analysis>)
    ensures |r| == |pages|
  {
    Map(Analyze, pages)
  }

  /** Entry `k` of `AnalyzeAll` is the analysis of page record `k`. */
  lemma AnalyzeAllAt(pages: seq<Page>, k: nat)
    requires k < |pages|
    ensures AnalyzeAll(pages)[k] == Analyze(pages[k])
  {
    MapAt(Analyze, pages, k);
  }

  class Analyzer {
    /** The opened document as its page texts; `None` until a load succeeds. */
    var doc: Option<seq<string>>
    var pagesData: seq<Page>
    var extractedText: string
    /** Page numbers whose image `page_<n>.png` exists in the temporary directory. */
    var tempImages: set<int>

    constructor (existingImages: set<int>)
      ensures doc == None && pagesData == [] && extractedText == ""
      ensures tempImages == existingImages
    {
      doc := None;
      pagesData := [];
      extractedText := "";
      tempImages := existingImages;
    }

    /** `load_pdf`: `loaded` is what the PDF library returned, `None` when it raised. */
    method LoadPdf(loaded: Option<seq<string>>) returns (ok: bool)
      modifies this`doc
      ensures doc == loaded
      ensures ok <==> loaded.Some?
    {
      doc := loaded;
      ok := loaded.Some?;
    }

    function ExtractBasicInfo(): (info: Option<PdfInfo>)
      reads this
      ensures info.Some? <==> doc.Some?
      ensures info.Some? ==> info.value.pageCount == |doc.value|
    {
      if doc.None? then None else Some(PdfInfo(|doc.value|))
    }

    /** `extract_text_by_page`: numbers the pages and joins their texts with a blank line. */
    method ExtractTextByPage() returns (pages: seq<Page>)
      modifies this`pagesData, this`extractedText
      ensures doc.None? ==> pages == [] && pagesData == old(pagesData) && extractedText == old(extractedText)
      ensures doc.Some? ==> pages == PagesOf(doc.value) && pagesData == pages
      ensures doc.Some? ==> extractedText == Join("\n\n", doc.value)
      ensures forall i :: 0 <= i < |pages| ==> Contains(extractedText, pages[i].rawText)
    {
      if doc.None? {
        return [];
      }
      var texts := doc.value;
      pages := [];
      var i := 0;
      while i < |texts|
        invariant 0 <= i <= |texts|
        invariant pages == PagesOf(texts[..i])
      {
        pages := pages + [Page(i + 1, texts[i], false)];
        i := i + 1;
      }
      pagesData := pages;
      extractedText := Join("\n\n", texts);
      forall k | 0 <= k < |pages| ensures Contains(extractedText, pages[k].rawText) {
        JoinContainsPart("\n\n", texts, k);
      }
    }

    /**
     * One step of `iter_pages`: the record of page `index + 1`, with its
     * image rendered into the temporary directory when `renderImage` holds.
     */
    method NextPage(index: nat, renderImage: bool) returns (page: Page)
      requires doc.Some? && index < |doc.value|
      modifies this`tempImages
      ensures page == Page(index + 1, doc.value[index], renderImage)
      ensures tempImages == old(tempImages) + (if renderImage then {index + 1} else {})
    {
      page := Page(index + 1, doc.value[index], false);
      if renderImage {
        tempImages := tempImages + {index + 1};
        page := page.(hasTempImage := true);
      }
    }

    /** `render_page_image`: `saved` is whether writing the image file succeeded. */
    method RenderPageImage(pageNumber: int, saved: bool) returns (r: Result<int, RenderError>)
      modifies this`tempImages
      ensures doc.None? ==> r == Err(NotLoaded)
      ensures doc.Some? && (pageNumber < 1 || pageNumber > |doc.value|) ==> r == Err(InvalidPageNumber)
      ensures doc.Some? && 1 <= pageNumber <= |doc.value| ==> r == (if saved then Ok(pageNumber) else Err(SaveFailed))
      ensures tempImages == old(tempImages) + (if r.Ok? then {pageNumber} else {})
    {
      if doc.None? {
        return Err(NotLoaded);
      }
      if pageNumber < 1 || pageNumber > |doc.value| {
        return Err(InvalidPageNumber);
      }
      if !saved {
        return Err(SaveFailed);
      }
      tempImages := tempImages + {pageNumber};
      r := Ok(pageNumber);
    }

    /**
     * `detect_tables_and_images`: renders the first pages (all of them unless
     * a smaller `max_pages` is given) and classifies each as text or vision.
     */
    method DetectTablesAndImages(maxPages: Option<int>) returns (elements: seq<PageElements>)
      modifies this`tempImages
      ensures doc.None? ==> elements == [] && tempImages == old(tempImages)
      ensures doc.Some? ==> |elements| == PagesVisited(PageLimit(maxPages, |doc.value|))
      ensures doc.Some? ==> forall i :: 0 <= i < |elements| ==> elements[i] == ElementFor(i, doc.value[i])
      ensures doc.Some? ==> tempImages == old(tempImages) + FirstPages(|elements|)
    {
      if doc.None? {
        return [];
      }
      var total := |doc.value|;
      var count := PagesVisited(PageLimit(maxPages, total));
      elements := [];
      for i := 0 to count
        invariant |elements| == i
        invariant forall k :: 0 <= k < i ==> elements[k] == ElementFor(k, doc.value[k])
        invariant tempImages == old(tempImages) + FirstPages(i)
      {
        tempImages := tempImages + {i + 1};
        elements := elements + [ElementFor(i, doc.value[i])];
      }
    }

    /** `get_extraction_strategy`: one recommendation per page record, in order. */
    method GetExtractionStrategy() returns (strategies: seq<Strategy>)
      ensures |strategies| == |pagesData|
      ensures forall i :: 0 <= i < |pagesData| ==> strategies[i] == StrategyFor(pagesData[i])
    {
      strategies := [];
      for i := 0 to |pagesData|
        invariant |strategies| == i
        invariant forall k :: 0 <= k < i ==> strategies[k] == StrategyFor(pagesData[k])
      {
        var pageData := pagesData[i];
        var textLength := |Strip(pageData.rawText)|;
        var strategy;
        if textLength > 100 {
          strategy := Strategy(pageData.pageNumber, TextMethod, High, textLength);
        } else if textLength > 20 {
          strategy := Strategy(pageData.pageNumber, HybridMethod, Medium, textLength);
        } else {
          strategy := Strategy(pageData.pageNumber, VisionMethod, High, textLength);
        }
        strategies := strategies + [strategy];
      }
    }

    /** `detect_product_data_pages`: one analysis per page record, in order. */
    method DetectProductDataPages() returns (analyses: seq<Analysis>)
      ensures analyses == AnalyzeAll(pagesData)
    {
      analyses := [];
      for i := 0 to |pagesData|
        invariant analyses == AnalyzeAll(pagesData[..i])
      {
        assert pagesData[..i + 1][..i] == pagesData[..i];
        var pageData := pagesData[i];
        var text := Lower(pageData.rawText);
        var productScore := CountPresent(ProductIndicators, text);
        var introScore := CountPresent(IntroIndicators, text);
        var hasTabularData := DetectTabularStructure(text);
        var hasPartNumbers := PartNumberLineCount(Split(text, '\n')) > 2;
        var isProductPage, confidence;
        if hasTabularData && hasPartNumbers {
          confidence, isProductPage := High, true;
        } else if productScore > introScore && productScore >= 3 {
          confidence, isProductPage := Medium, true;
        } else if introScore > productScore {
          confidence, isProductPage := High, false;
        } else {
          confidence, isProductPage := Low, |Strip(text)| > 500;
        }
        assert Verdict(isProductPage, confidence)
            == Decide(hasTabularData, hasPartNumbers, productScore, introScore, |Strip(text)|);
        var analysis := Analysis(pageData.pageNumber, isProductPage, confidence, productScore,
                                 introScore, hasTabularData, hasPartNumbers, |text|);
        assert analysis == Analyze(pageData);
        analyses := analyses + [analysis];
      }
      assert pagesData[..|pagesData|] == pagesData;
    }  }
}
