/**
 * The orchestration of lib/pipeline.py: the batch run (`process_document`),
 * which drives one `Analyzer` through loading, text extraction, optional
 * pre-rendering and classification before the hybrid extraction, and the
 * streaming run (`process_document_streaming`), which walks the pages one at
 * a time, renders an image lazily for candidate pages in low-memory mode and
 * accumulates the items of each page in order.
 *
 * The PDF library is the `loaded` argument (the page texts, or `None` when
 * opening failed); writing a rendered image is the `saves` oracle; the
 * language models, the parser and the OCR helpers come in a `World`.
 */
module Pipeline {
  import opened Wrappers
  import opened TextUtil
  import opened PageClassifier
  import opened PdfAnalyzer
  import opened AdvancedDocumentAi
  import opened AiExtraction

  /** The dictionary either run returns. */
  datatype RunResult =
    | Failed(error: string)
    | Succeeded(info: PdfInfo, items: seq<Json>, pages: nat)

  const LoadFailure := "Failed to load PDF"

  /** The keyword arguments of a run that change its behaviour. */
  datatype Request = Request(
    useOpenai: bool,
    useGemini: bool,
    useAdvancedAi: bool,
    maxPages: Option<int>,
    prompt: Option<string>,
    minimizeMemory: bool)

  /** The collaborators of a run: API keys, model answers, the JSON parser, the OCR libraries. */
  datatype World = World(
    openaiKey: Option<string>,
    googleKey: Option<string>,
    services: Services,
    parse: string -> Option<Json>,
    env: Environment,
    backends: Backends)

  /** The extractor and oracles both runs hand to `extract_hybrid_data`. */
  function SettingOf(req: Request, w: World): Setting {
    Setting(NewExtractor(req.useOpenai, req.useGemini, w.openaiKey, w.googleKey), w.services, w.parse, req.prompt)
  }

  // ---------------------------------------------------------------------
  // batch
  // ---------------------------------------------------------------------

  /** The page images present when the batch run extracts: pre-rendered unless memory is minimised. */
  function BatchImages(texts: seq<string>, existing: set<int>, req: Request): (images: set<int>)
    ensures req.minimizeMemory ==> images == existing
    ensures !req.minimizeMemory ==>
              forall p :: p in images <==> p in existing || 1 <= p <= PagesVisited(PageLimit(req.maxPages, |texts|))
  {
    if req.minimizeMemory then existing
    else existing + FirstPages(PagesVisited(PageLimit(req.maxPages, |texts|)))
  }

  /** The OCR helper of the batch run: only with advanced AI requested and memory not minimised. */
  function BatchEngines(req: Request, w: World): (ai: Option<Engines>)
    ensures ai.Some? <==> req.useAdvancedAi && !req.minimizeMemory
  {
    HybridEngines(req.useAdvancedAi && !req.minimizeMemory, w.env, w.backends)
  }

  /** The items of the batch run: the hybrid extraction of the analysed product pages. */
  function BatchItems(texts: seq<string>, existing: set<int>, req: Request, w: World): seq<Json> {
    var pages := PagesOf(texts);
    HybridItems(SettingOf(req, w), BatchEngines(req, w), PagesToProcess(pages, Some(AnalyzeAll(pages))),
                BatchImages(texts, existing, req))
  }

  /**
   * `process_document`.  `existing` are the page images already in the
   * temporary directory; `images` are those present when the run ends.
   */
  method ProcessDocument(loaded: Option<seq<string>>, existing: set<int>, req: Request, w: World)
    returns (r: RunResult, images: set<int>)
    ensures loaded.None? ==> r == Failed(LoadFailure) && images == existing
    ensures loaded.Some? ==> r == Succeeded(PdfInfo(|loaded.value|), BatchItems(loaded.value, existing, req, w), |loaded.value|)
    ensures loaded.Some? ==> images == BatchImages(loaded.value, existing, req)
  {
    var analyzer := new Analyzer(existing);
    var ok := analyzer.LoadPdf(loaded);
    if !ok {
      return Failed(LoadFailure), analyzer.tempImages;
    }
    var info := analyzer.ExtractBasicInfo();
    var pagesData := analyzer.ExtractTextByPage();
    if !req.minimizeMemory {
      var elements := analyzer.DetectTablesAndImages(req.maxPages);
    }
    assert analyzer.tempImages == BatchImages(loaded.value, existing, req);
    var analysis := analyzer.DetectProductDataPages();
    var st := SettingOf(req, w);
    var items := ExtractHybridData(st, pagesData, analyzer.tempImages, Some(analysis),
                                   req.useAdvancedAi && !req.minimizeMemory, w.env, w.backends);
    assert items == BatchItems(loaded.value, existing, req, w);
    r := Succeeded(info.value, items, |pagesData|);
    images := analyzer.tempImages;
  }

  /** A non-empty document none of whose pages is classified as a product page yields no item. */
  lemma NoProductPageNoBatchItems(texts: seq<string>, existing: set<int>, req: Request, w: World)
    requires texts != []
    requires forall k :: 0 <= k < |texts| ==> !Analyze(Page(k + 1, texts[k], false)).isProductPage
    ensures BatchItems(texts, existing, req, w) == []
  {
    var pages := PagesOf(texts);
    var analysis := AnalyzeAll(pages);
    forall a | a in analysis ensures !a.isProductPage {
      var k :| 0 <= k < |analysis| && analysis[k] == a;
      AnalyzeAllAt(pages, k);
    }
    NoProductPageNoWork(pages, analysis);
  }

  /**
   * A page kept by the product-page filter, for any analysis that numbers
   * the pages in order, is the page record at the analysed index that is
   * marked as a product page.
   */
  lemma FilteredPageIndex(texts: seq<string>, analysis: seq<Analysis>, p: Page) returns (k: nat)
    requires texts != [] && |analysis| == |texts|
    requires forall j :: 0 <= j < |analysis| ==> analysis[j].page == j + 1
    requires p in PagesToProcess(PagesOf(texts), Some(analysis))
    ensures k < |texts| && p == PagesOf(texts)[k] && analysis[k].isProductPage
  {
    var pages := PagesOf(texts);
    var a :| a in analysis && a.isProductPage && a.page == p.pageNumber;
    var i :| 0 <= i < |analysis| && analysis[i] == a;
    var j :| 0 <= j < |pages| && pages[j] == p;
    assert pages[j] == Page(j + 1, texts[j], false);
    assert analysis[i].page == i + 1;
    assert i == j;
    k := i;
  }

  /** The analysis of a document numbers its pages in order. */
  lemma AnalysisNumbersPages(texts: seq<string>)
    ensures forall j :: 0 <= j < |texts| ==> AnalyzeAll(PagesOf(texts))[j].page == j + 1
  {
    forall j | 0 <= j < |texts|
      ensures AnalyzeAll(PagesOf(texts))[j].page == j + 1
    {
      AnalyzeAllAt(PagesOf(texts), j);
    }
  }

  /** A page the batch run processes is a page record whose analysis marks it as a product page. */
  lemma ProcessedPageIndex(texts: seq<string>, p: Page) returns (k: nat)
    requires texts != []
    requires p in PagesToProcess(PagesOf(texts), Some(AnalyzeAll(PagesOf(texts))))
    ensures k < |texts| && p == PagesOf(texts)[k] && AnalyzeAll(PagesOf(texts))[k].isProductPage
  {
    AnalysisNumbersPages(texts);
    k := FilteredPageIndex(texts, AnalyzeAll(PagesOf(texts)), p);
  }

  /** The batch run hands the models the document's own page records, unchanged. */
  lemma BatchPagesAreRecords(texts: seq<string>, p: Page)
    requires texts != []
    requires p in PagesToProcess(PagesOf(texts), Some(AnalyzeAll(PagesOf(texts))))
    ensures 1 <= p.pageNumber <= |texts| && p == Page(p.pageNumber, texts[p.pageNumber - 1], false)
  {
    var k := ProcessedPageIndex(texts, p);
    PageRecordAt(texts, p, k);
  }

  /** The page record at index `k` carries page number `k + 1` and the page's text. */
  lemma PageRecordAt(texts: seq<string>, p: Page, k: nat)
    requires k < |texts| && p == PagesOf(texts)[k]
    ensures 1 <= p.pageNumber <= |texts| && p == Page(p.pageNumber, texts[p.pageNumber - 1], false)
  {
  }

  /** Only pages classified as product pages are sent to the models: the rest contribute nothing. */
  lemma BatchPagesAreProductPages(texts: seq<string>, p: Page)
    requires texts != []
    requires p in PagesToProcess(PagesOf(texts), Some(AnalyzeAll(PagesOf(texts))))
    ensures Analyze(p).isProductPage
  {
    var k := ProcessedPageIndex(texts, p);
    AnalyzeAllAt(PagesOf(texts), k);
  }

  // ---------------------------------------------------------------------
  // streaming
  // ---------------------------------------------------------------------

  /** The candidate heuristic on the lowercased text of a page. */
  predicate IsCandidate(text: string)
    ensures Contains(text, "86-") || Contains(text, "87-") ==> IsCandidate(text)
    ensures IsCandidate(text) && |text| <= 100 ==> Contains(text, "86-") || Contains(text, "87-")
  {
    Contains(text, "86-") || Contains(text, "87-")
    || (|text| > 100 && (Contains(text, "model") || Contains(text, "years") || Contains(text, "part")))
  }

  /** A line with a part-number prefix, when any line has one. */
  lemma {:induction false} PartLineWitness(lines: seq<string>) returns (i: nat)
    requires PartNumberLineCount(lines) > 0
    ensures i < |lines| && HasPartPrefix(lines[i])
    decreases |lines|
  {
    var n := |lines| - 1;
    if HasPartPrefix(lines[n]) {
      i := n;
    } else {
      i := PartLineWitness(lines[..n]);
      assert lines[..n][i] == lines[i];
    }
  }

  /** Every text the classifier credits with part numbers is a streaming candidate. */
  lemma PartNumbersMakeCandidate(text: string)
    requires HasPartNumbers(text)
    ensures IsCandidate(text)
  {
    var lines := Split(text, '\n');
    var i := PartLineWitness(lines);
    SplitPieceContained(text, '\n', i);
    if Contains(lines[i], "86-") {
      ContainsTrans("86-", lines[i], text);
    } else {
      ContainsTrans("87-", lines[i], text);
    }
  }

  /** The inputs of a streaming run besides its request and world. */
  datatype Stream = Stream(texts: seq<string>, existing: set<int>, saves: int -> bool)

  /**
   * Whether page `k + 1` has an image once it is reached: rendered by the
   * iteration in standard mode, or lazily, for a candidate whose image file
   * could be written, in low-memory mode.
   */
  predicate Rendered(s: Stream, minimize: bool, k: nat)
    requires k < |s.texts|
  {
    !minimize || (IsCandidate(Lower(s.texts[k])) && s.saves(k + 1))
  }

  /** The page images present once the first `n` pages have been reached. */
  function StreamImages(s: Stream, minimize: bool, n: nat): set<int>
    requires n <= |s.texts|
  {
    if n == 0 then s.existing
    else StreamImages(s, minimize, n - 1) + (if Rendered(s, minimize, n - 1) then {n} else {})
  }

  /** The images present are the existing ones and those of the pages reached so far that were rendered. */
  lemma {:induction false} StreamImagesMembers(s: Stream, minimize: bool, n: nat, p: int)
    requires n <= |s.texts|
    ensures p in StreamImages(s, minimize, n) <==>
              p in s.existing || (1 <= p <= n && Rendered(s, minimize, p - 1))
  {
    if n > 0 {
      StreamImagesMembers(s, minimize, n - 1, p);
    }
  }

  /** In low-memory mode no image is written for a page that is not a candidate. */
  lemma NoRenderForOtherPages(s: Stream, n: nat, k: nat)
    requires k < n <= |s.texts| && k + 1 !in s.existing
    requires !IsCandidate(Lower(s.texts[k]))
    ensures k + 1 !in StreamImages(s, true, n)
  {
    StreamImagesMembers(s, true, n, k + 1);
  }

  /** The record of page `k + 1` as the extraction sees it. */
  function StreamPage(s: Stream, minimize: bool, k: nat): (p: Page)
    requires k < |s.texts|
    ensures p.pageNumber == k + 1 && p.rawText == s.texts[k]
  {
    Page(k + 1, s.texts[k], Rendered(s, minimize, k))
  }

  /** The items accumulated over the first `n` pages: each page's items, in page order. */
  function StreamItems(s: Stream, minimize: bool, extractPage: (Page, set<int>) -> seq<Json>, n: nat): seq<Json>
    requires n <= |s.texts|
  {
    if n == 0 then []
    else StreamItems(s, minimize, extractPage, n - 1)
         + extractPage(StreamPage(s, minimize, n - 1), StreamImages(s, minimize, n))
  }

  /** Items are only ever appended: the items of fewer pages are a prefix of those of more pages. */
  lemma {:induction false} StreamItemsGrow(s: Stream, minimize: bool, extractPage: (Page, set<int>) -> seq<Json>, m: nat, n: nat)
    requires m <= n <= |s.texts|
    ensures StreamItems(s, minimize, extractPage, m) <= StreamItems(s, minimize, extractPage, n)
    decreases n
  {
    if m < n {
      StreamItemsGrow(s, minimize, extractPage, m, n - 1);
    }
  }

  /** Every page is processed, candidate or not: its items follow those of the pages before it. */
  lemma EveryPageProcessed(s: Stream, minimize: bool, extractPage: (Page, set<int>) -> seq<Json>, k: nat)
    requires k < |s.texts|
    ensures StreamItems(s, minimize, extractPage, k) + extractPage(StreamPage(s, minimize, k), StreamImages(s, minimize, k + 1))
            <= StreamItems(s, minimize, extractPage, |s.texts|)
  {
    StreamItemsGrow(s, minimize, extractPage, k + 1, |s.texts|);
  }

  /**
   * `process_document_streaming`.  `extractPage` stands for the per-page
   * call of `extract_hybrid_data` on `[page]` with the images then present;
   * `processedPages` is the loop's page counter.
   */
  method ProcessDocumentStreaming(loaded: Option<seq<string>>, existing: set<int>, saves: int -> bool,
                                  req: Request, extractPage: (Page, set<int>) -> seq<Json>)
    returns (r: RunResult, processedPages: nat, images: set<int>)
    ensures loaded.None? ==> r == Failed(LoadFailure) && processedPages == 0 && images == existing
    ensures loaded.Some? ==> processedPages == |loaded.value|
    ensures loaded.Some? ==>
              var s := Stream(loaded.value, existing, saves);
              r == Succeeded(PdfInfo(|loaded.value|), StreamItems(s, req.minimizeMemory, extractPage, |loaded.value|), |loaded.value|)
              && images == StreamImages(s, req.minimizeMemory, |loaded.value|)
  {
    var analyzer := new Analyzer(existing);
    var ok := analyzer.LoadPdf(loaded);
    if !ok {
      return Failed(LoadFailure), 0, analyzer.tempImages;
    }
    var info := analyzer.ExtractBasicInfo();
    var totalPages := info.value.pageCount;
    ghost var s := Stream(loaded.value, existing, saves);
    var allItems: seq<Json> := [];
    processedPages := 0;
    for i := 0 to totalPages
      invariant analyzer.doc == loaded
      invariant processedPages == i
      invariant analyzer.tempImages == StreamImages(s, req.minimizeMemory, i)
      invariant allItems == StreamItems(s, req.minimizeMemory, extractPage, i)
    {
      var pageData := analyzer.NextPage(i, !req.minimizeMemory);
      processedPages := processedPages + 1;
      var text := Lower(pageData.rawText);
      var isCandidate := IsCandidate(text);
      if req.minimizeMemory && isCandidate && !pageData.hasTempImage {
        var rendered := analyzer.RenderPageImage(pageData.pageNumber, saves(pageData.pageNumber));
        if rendered.Ok? {
          pageData := pageData.(hasTempImage := true);
        }
      }
      assert pageData == StreamPage(s, req.minimizeMemory, i);
      var items := extractPage(pageData, analyzer.tempImages);
      if items != [] {
        allItems := allItems + items;
      }
    }
    r := Succeeded(info.value, allItems, totalPages);
    images := analyzer.tempImages;
  }
}
