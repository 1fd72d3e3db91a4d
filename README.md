# PDF catalog analyzer — a Dafny model of its extraction core

This project models the core of the `lib` package of a PDF catalog analyzer. The package takes an automotive parts catalog in PDF form, finds the pages that carry product data, and asks language models (OpenAI or Gemini, optionally with local OCR and cloud vision engines) for the catalog items as JSON.

The model has one module per source file, except that `lib/pdf_analyzer.py` is split into its pure classification rules and its stateful analyzer object; three support modules complete it:

- `PageClassifier` (`page_classifier.dfy`) — the pure rules of `lib/pdf_analyzer.py`: the per-page extraction strategy, the product/intro indicator scores, the tabular-structure and part-number tests, and the product-page verdict.
- `PdfAnalyzer` (`pdf_analyzer.dfy`) — the `PDFAnalyzer` object as a class whose fields are updated in place:
  - the loaded document;
  - `pages_data`;
  - `extracted_text`;
  - the page images present in the temporary directory, a set of page numbers.

  Loops over pages are methods proved against the classifier's functions.
- `AdvancedDocumentAi` (`advanced_document_ai.dfy`) — `AdvancedDocumentAI`:
  - which OCR and cloud engines get registered;
  - the "auto" engine choice;
  - the confidence filter;
  - the Textract text join;
  - the multi-engine run in its fixed order;
  - the ranking of results;
  - the merge of the best OCR text into the page text.

  The object's two engine dictionaries are fields of type `set`.
- `AiExtraction` (`ai_extraction.dfy`) — `AIDataExtractor`:
  - backend choice;
  - the 8000-character truncation;
  - cleaning of a model's answer (code fences, then the first `[...]` or `{...}` span, as the non-greedy regular expressions pick it);
  - page selection by the product-page analysis;
  - the per-page fallback chain (multimodal, raw text, page image) and the page-ordered concatenation of items.
- `Pipeline` (`pipeline.dfy`) — `process_document` and `process_document_streaming`.
- `TextUtil`, `Seqs` and `Wrappers` — Python string operations on ASCII text (`lower`, `strip`, `split`, `join`, `in`, `startswith`, `replace(..., "")`), generic map/concat-map over sequences, and `Option`/`Result`.

The following are parameters ("oracles") rather than code:

- **PDF library:** the list of page texts, or `None` when opening failed.
- **Writing a page image:** a predicate on page numbers.
- **Optional OCR and cloud libraries:** an `Environment`, saying which import and which constructors succeed.
- **Engine inference calls:** `Backends`, with `None` for a call that raised.
- **Language models:** `Services`, mapping the exact user message to the answer, `None` when the call raised.
- **`json.loads`:** a `parse` function.

## Model

| member | source | states |
|---|---|---|
| PageClassifier.StrategyFor | lib/pdf_analyzer.py:175-200 | the method is "text" iff the stripped text is longer than 100, "hybrid" iff it is 21..100, "vision" iff it is at most 20; confidence is medium exactly for hybrid; the page number and stripped length are carried over |
| PageClassifier.StrategyMonotone | lib/pdf_analyzer.py:179-199 | a page with more stripped text is never pushed further towards vision than one with less |
| PageClassifier.TablesMethod | lib/pdf_analyzer.py:153-163 | the per-page method of `detect_tables_and_images` is "text" iff the stripped text is longer than 50, else "vision", never hybrid |
| PageClassifier.LengthRulesAgree | lib/pdf_analyzer.py:153-199 | the two length rules agree on "text" and "vision" pages and differ only where the strategy says hybrid |
| PageClassifier.CountPresent | lib/pdf_analyzer.py:256-257 | an indicator score never exceeds the number of indicators |
| PageClassifier.CountIsDistinctHits | lib/pdf_analyzer.py:214-257 | for a list of distinct indicators the score is the number of distinct indicators that occur in the text |
| PageClassifier.ScoreMonotone | lib/pdf_analyzer.py:256-257 | a text containing another text scores at least as high on any indicator list |
| PageClassifier.LinePoints | lib/pdf_analyzer.py:294-307 | a line adds at most 3 tabular indicators, a blank line none, and a line with a part-number prefix at least 1 |
| PageClassifier.TabularBound | lib/pdf_analyzer.py:292-309 | the tabular indicator count is at most three per non-blank line |
| PageClassifier.PartLinesAreTabularPoints | lib/pdf_analyzer.py:259-307 | every line counted as a part-number line also scores a tabular indicator, so part-number lines never exceed the tabular count |
| PageClassifier.Decide | lib/pdf_analyzer.py:263-274 | the four-way verdict as iffs: high and product exactly when tabular with part numbers, medium exactly when not that and the product score beats the intro score and is at least 3, high and non-product exactly when neither and the intro score wins, and otherwise low with product iff more than 500 stripped characters |
| PageClassifier.Analyze | lib/pdf_analyzer.py:210-286 | the analysis carries the page number and the unstripped length; its scores are the indicator counts on the lowercased text (bounded by 26 and 10); its tabular and part-number flags are the tests on that text; its verdict and confidence are the four-way decision on those values and the stripped length |
| PageClassifier.PartHeavyPageIsProduct | lib/pdf_analyzer.py:259-265 | a page with at least five part-number lines is a product page with high confidence |
| PageClassifier.IntroPageIsRejected | lib/pdf_analyzer.py:269-271 | a page whose intro score beats its product score, and that is not tabular with part numbers, is rejected with high confidence |
| PageClassifier.TabularNeedsTwoLines | lib/pdf_analyzer.py:292-309 | a tabular text has at least two non-blank lines |
| PdfAnalyzer.PagesOf | lib/pdf_analyzer.py:69-78 | one page record per page, numbered from 1, with its text, in page order |
| PdfAnalyzer.PageLimit | lib/pdf_analyzer.py:136-137 | the page limit is the page count unless `max_pages` is given, non-zero and below it; a negative limit is kept |
| PdfAnalyzer.ElementFor | lib/pdf_analyzer.py:153-164 | an element carries page number index+1 and the stripped text length, has substantial text iff that length exceeds 50, and its method is the tables-and-images length rule ("text" exactly when substantial) |
| PdfAnalyzer.DetectTabularStructure | lib/pdf_analyzer.py:290-309 | the counting loop returns exactly the tabular test (at least 5 indicators) |
| PdfAnalyzer.AnalyzeAllAt | lib/pdf_analyzer.py:210-288 | the k-th analysis is the analysis of the k-th page |
| PdfAnalyzer.Analyzer.constructor | lib/pdf_analyzer.py:33-35 | no document, no pages, empty text; the temporary directory keeps the images already in it |
| PdfAnalyzer.Analyzer.LoadPdf | lib/pdf_analyzer.py:37-44 | the document becomes what opening gave, and the result is true iff opening succeeded |
| PdfAnalyzer.Analyzer.ExtractBasicInfo | lib/pdf_analyzer.py:46-61 | info exists iff a document is loaded, and then its page count is the document's |
| PdfAnalyzer.Analyzer.ExtractTextByPage | lib/pdf_analyzer.py:63-82 | without a document nothing changes and the result is empty; otherwise the pages are the page records, stored in `pagesData`, and `extractedText` is their texts joined by blank lines, containing each page text |
| PdfAnalyzer.Analyzer.NextPage | lib/pdf_analyzer.py:93-111 | the yielded page is record index+1 with the requested image flag, and its image joins the directory iff it is rendered |
| PdfAnalyzer.Analyzer.RenderPageImage | lib/pdf_analyzer.py:113-125 | fails with "not loaded" without a document, with "invalid page number" outside 1..count, with a save failure when writing fails, else returns the page number; the image joins the directory exactly on success |
| PdfAnalyzer.Analyzer.DetectTablesAndImages | lib/pdf_analyzer.py:127-167 | nothing without a document; otherwise one element per visited page of the clamped limit, each element as the page rule gives, and the images of pages 1..that count added to the directory |
| PdfAnalyzer.Analyzer.GetExtractionStrategy | lib/pdf_analyzer.py:169-202 | one strategy per stored page, each the length rule of that page |
| PdfAnalyzer.Analyzer.DetectProductDataPages | lib/pdf_analyzer.py:204-288 | the loop returns the analysis of every stored page, in order |
| AdvancedDocumentAi.RegisteredOcr | lib/advanced_document_ai.py:67-102 | an OCR engine is registered iff its library imports, it is enabled and its constructor succeeds; the TrOCR model only together with its processor |
| AdvancedDocumentAi.RegisteredCloud | lib/advanced_document_ai.py:104-116 | a cloud service is registered iff its library imports and its client constructor succeeds |
| AdvancedDocumentAi.DisablingShrinksRegistration | lib/advanced_document_ai.py:67-102 | disabling an engine never adds a registration, and disabling TrOCR leaves neither TrOCR key |
| AdvancedDocumentAi.DocumentAI.constructor | lib/advanced_document_ai.py:42-56 | the object keeps its flags and ends with exactly the registered OCR engines and cloud services |
| AdvancedDocumentAi.DocumentAI.InitializeEngines | lib/advanced_document_ai.py:58-116 | each registration step adds its key to the dictionaries only when its guards hold |
| AdvancedDocumentAi.AutoOcr | lib/advanced_document_ai.py:120-128 | "auto" picks PaddleOCR, else EasyOCR, else TrOCR (by its processor), else nothing — each as an iff |
| AdvancedDocumentAi.ConfidentLinesMembers | lib/advanced_document_ai.py:133-146 | a line text is kept iff some line carrying it has confidence above 0.5 |
| AdvancedDocumentAi.ConfidentLinesAppend | lib/advanced_document_ai.py:133-146 | the filter keeps line order: it distributes over concatenation |
| AdvancedDocumentAi.JoinConfident | lib/advanced_document_ai.py:142-146 | the loop returns the newline join of the confident line texts |
| AdvancedDocumentAi.AdvancedOcr | lib/advanced_document_ai.py:119-161 | PaddleOCR and EasyOCR answer iff registered and their call succeeded, and then with their confident lines joined by newlines; TrOCR answers its generated text iff processor and model are registered; unknown method names give nothing |
| AdvancedDocumentAi.AutoOcrIsPreferredEngine | lib/advanced_document_ai.py:120-128 | "auto" answers exactly as the preferred registered engine, and nothing when none is registered |
| AdvancedDocumentAi.LineTexts | lib/advanced_document_ai.py:200-205 | the texts are exactly those of the LINE blocks, a missing text as "" |
| AdvancedDocumentAi.LineTextsAppend | lib/advanced_document_ai.py:200-205 | the LINE texts keep block order and multiplicity: they distribute over concatenation |
| AdvancedDocumentAi.LineTextsOfBlock | lib/advanced_document_ai.py:202-204 | a single block contributes its text (or "") exactly when it is a LINE block |
| AdvancedDocumentAi.NoLineBlocksNoText | lib/advanced_document_ai.py:200-205 | blocks without a LINE block give the empty text |
| AdvancedDocumentAi.ExtractTextractText | lib/advanced_document_ai.py:200-205 | the loop returns the newline join of the LINE texts |
| AdvancedDocumentAi.TablesOf | lib/advanced_document_ai.py:180-183 | every TABLE block has a record, and every record comes from a TABLE block |
| AdvancedDocumentAi.TablesOfAppend | lib/advanced_document_ai.py:180-183 | the table records keep block order and multiplicity: they distribute over concatenation |
| AdvancedDocumentAi.TablesOfBlock | lib/advanced_document_ai.py:181-183 | a single block gives one record exactly when it is a TABLE block |
| AdvancedDocumentAi.AutoCloud | lib/advanced_document_ai.py:165-171 | "auto" picks Textract, else GCP Vision, else nothing — each as an iff |
| AdvancedDocumentAi.CloudService | lib/advanced_document_ai.py:164-198 | Textract answers iff registered and its call succeeded, and then with its LINE text and table records; GCP Vision answers iff registered, its call succeeded and it found an annotation, and then with the first annotation; unknown names give nothing |
| AdvancedDocumentAi.AutoCloudIsPreferredService | lib/advanced_document_ai.py:165-171 | "auto" answers exactly as the preferred registered service |
| AdvancedDocumentAi.OcrEntry | lib/advanced_document_ai.py:213-217 | an OCR engine adds an entry iff it was attempted and answered a non-empty text, and the entry is that answer under the engine's name |
| AdvancedDocumentAi.CloudEntry | lib/advanced_document_ai.py:219-223 | a registered service adds an entry iff it answered a truthy result, and the entry is that answer under the service's name |
| AdvancedDocumentAi.MultiResultsInFixedOrder | lib/advanced_document_ai.py:211-225 | the results are the entries of paddleocr, easyocr, trocr, textract and gcp_vision, in that order |
| AdvancedDocumentAi.MultiResultsTruthy | lib/advanced_document_ai.py:216-223 | every recorded result is truthy |
| AdvancedDocumentAi.BestIndex | lib/advanced_document_ai.py:227-240 | the chosen entry has the highest positive score and is the first with that score; there is none iff every score is 0 |
| AdvancedDocumentAi.MergeText | lib/advanced_document_ai.py:252-254 | the merged text starts with the page text and contains the OCR text; it is the page text unchanged iff the OCR text is empty or already contained, else the OCR text is appended after a blank line |
| AdvancedDocumentAi.MergeIdempotent | lib/advanced_document_ai.py:252-254 | merging the same OCR text twice changes nothing the second time |
| AdvancedDocumentAi.DocumentAI.ExtractWithAdvancedOcr | lib/advanced_document_ai.py:119-161 | the method answers as the OCR function on the object's engines |
| AdvancedDocumentAi.DocumentAI.ExtractWithCloudServices | lib/advanced_document_ai.py:164-198 | the method answers as the cloud function on the object's services |
| AdvancedDocumentAi.DocumentAI.OcrStep | lib/advanced_document_ai.py:213-217 | one OCR iteration adds exactly that engine's entry |
| AdvancedDocumentAi.DocumentAI.CloudStep | lib/advanced_document_ai.py:219-223 | one service iteration adds exactly that service's entry |
| AdvancedDocumentAi.DocumentAI.MultiEngineExtraction | lib/advanced_document_ai.py:211-225 | the two loops return the fixed-order multi-engine results |
| AdvancedDocumentAi.DocumentAI.GetBestExtraction | lib/advanced_document_ai.py:227-240 | the ranking loop returns the entry the best-index rule selects, or nothing |
| AdvancedDocumentAi.DocumentAI.ExtractWithLayoutlmStyle | lib/advanced_document_ai.py:242-261 | the method returns the merge of the best OCR text into the page text, with the results it came from |
| AiExtraction.NewExtractor | lib/ai_extraction.py:17-22 | a backend is used iff requested and its API key is set and non-empty |
| AiExtraction.Truncate | lib/ai_extraction.py:67 | the cut text is a prefix of at most n characters, the whole text when it is short enough |
| AiExtraction.UserMessage | lib/ai_extraction.py:67 | the user message starts with the prompt and is bounded by the prompt plus 8000 characters of text plus the fixed glue |
| AiExtraction.ExtractStructuredData | lib/ai_extraction.py:38-57 | no prompt or no backend gives nothing; OpenAI is asked first, Gemini only when OpenAI is off |
| AiExtraction.OnlyLeadingTextMatters | lib/ai_extraction.py:59-83 | two texts with the same first 8000 characters produce the same user message, hence the same request |
| AiExtraction.ExtractFromImage | lib/ai_extraction.py:115-123 | the image request follows the same prompt and backend order |
| AiExtraction.CleanResponse | lib/ai_extraction.py:88-98 | an answer not starting with a fence is only stripped; the cleaned text never starts or ends with whitespace |
| AiExtraction.JsonFenceRoundTrip | lib/ai_extraction.py:90-91 | a ```json fence around a payload without backticks cleans to the stripped payload |
| AiExtraction.FenceRoundTrip | lib/ai_extraction.py:92-98 | any other fence whose tag has no newline cleans to the stripped payload |
| AiExtraction.FirstSpan | lib/ai_extraction.py:102 | the span found is the leftmost opening bracket and the first closing bracket after it; none iff no opener precedes a closer |
| AiExtraction.Candidate | lib/ai_extraction.py:102-110 | the text handed to the parser is exactly the slice of the first bracketed array span, else of the first braced object span, else the whole cleaned text; it is always part of the cleaned text |
| AiExtraction.ValidateExtractedData | lib/ai_extraction.py:86-112 | the answer is the parse of the first array span of the cleaned response, else of its first object span, else of the whole cleaned response; a failing parse gives nothing |
| AiExtraction.ArraySpanDecides | lib/ai_extraction.py:102-104 | once an array span exists, the parser sees exactly it |
| AiExtraction.FencedArrayReachesParser | lib/ai_extraction.py:86-104 | a fenced flat JSON array reaches the parser exactly as written |
| AiExtraction.ItemsOf | lib/ai_extraction.py:222-224 | items are taken iff the parse is a non-empty list, and then they are that list |
| AiExtraction.ProductPageNumbers | lib/ai_extraction.py:186 | the page numbers are exactly those of analyses marked as product pages |
| AiExtraction.FilterPages | lib/ai_extraction.py:187 | a page is kept iff its number is selected |
| AiExtraction.FilterPagesAppend | lib/ai_extraction.py:187 | the filter keeps page order |
| AiExtraction.PagesToProcess | lib/ai_extraction.py:185-189 | without an analysis, or with an empty one, every page is processed; otherwise exactly the pages some product analysis names |
| AiExtraction.NoProductPageNoWork | lib/ai_extraction.py:185-189 | an analysis that flags no page leaves nothing to process |
| AiExtraction.RunChain | lib/ai_extraction.py:197-231 | each step runs iff the earlier ones found nothing; the items come from the last step run, and no items means every step found nothing |
| AiExtraction.RunChainItems | lib/ai_extraction.py:197-231 | the items are those of the first step that found any |
| AiExtraction.HybridItemsAppend | lib/ai_extraction.py:192-234 | items accumulate page by page: the items of two page lists are concatenated |
| AiExtraction.RunMultimodalStep | lib/ai_extraction.py:199-211 | the multimodal step asks the model about the merged text of the page |
| AiExtraction.ExtractPageItems | lib/ai_extraction.py:192-231 | the per-page body returns the items of the fallback chain |
| AiExtraction.ExtractHybridData | lib/ai_extraction.py:165-236 | returns the concatenated chain items of the selected pages, with the helper built as the source builds it |
| AiExtraction.ExtractPages | lib/ai_extraction.py:175-236 | the page loop returns each page's chain items appended in page order, the hybrid items of the page list |
| Pipeline.BatchImages | lib/pipeline.py:38-40 | memory-minimising runs render nothing; otherwise pages 1..the visited count get images |
| Pipeline.BatchEngines | lib/pipeline.py:52 | the OCR helper is used iff advanced AI is requested and memory is not minimised |
| Pipeline.ProcessDocument | lib/pipeline.py:11-61 | a load failure returns the error and touches no image; otherwise the result holds the page count, the items of the analysed product pages and the number of pages, and the images are the pre-rendered ones |
| Pipeline.NoProductPageNoBatchItems | lib/pipeline.py:43-54 | a document without a product page yields no items |
| Pipeline.ProcessedPageIndex | lib/pipeline.py:36-54 | every processed page is a page record whose analysis marks it as a product page |
| Pipeline.BatchPagesAreRecords | lib/pipeline.py:36-54 | the batch run hands the models the document's own page records |
| Pipeline.BatchPagesAreProductPages | lib/pipeline.py:43-54 | only product pages are processed |
| Pipeline.IsCandidate | lib/pipeline.py:119-122 | a page mentioning "86-" or "87-" is a candidate, and a page of at most 100 characters is one only for that reason |
| Pipeline.PartNumbersMakeCandidate | lib/pipeline.py:119-122 | every page with the classifier's part-number evidence is a streaming candidate |
| Pipeline.StreamImagesMembers | lib/pipeline.py:116-144 | after n pages an image exists iff it existed before or its page was rendered: always outside low-memory mode, otherwise for candidates whose image was written |
| Pipeline.NoRenderForOtherPages | lib/pipeline.py:134-144 | in low-memory mode a non-candidate page gets no image |
| Pipeline.StreamPage | lib/pipeline.py:116-119 | the k-th streamed page is page k+1 with its own text |
| Pipeline.StreamItemsGrow | lib/pipeline.py:145-155 | the items only grow as pages are streamed |
| Pipeline.EveryPageProcessed | lib/pipeline.py:131-155 | the items of every page, candidate or not, end up in the result after those of the earlier pages |
| Pipeline.ProcessDocumentStreaming | lib/pipeline.py:64-166 | a load failure returns the error with no page processed; otherwise every page is processed, the items are those of the pages in order and the images are those the lazy rendering leaves |
| TextUtil.JoinSplit | lib/ai_extraction.py:93-98 | joining the newline split of a text gives the text back |
| TextUtil.SplitConcat | lib/ai_extraction.py:93 | splitting at a separator splits the two sides independently |
| TextUtil.StripKeepsWord | lib/pdf_analyzer.py:295-306 | stripping a line keeps every space-free word in it |
| TextUtil.StripSurrounded | lib/ai_extraction.py:89 | stripping ignores the whitespace around a text |

## Left out

- PDF rendering, text layout (`text_blocks`, `page_size`), embedded-image lists, metadata other than the page count, and the file name are not modelled. The PDF library is the list of page texts.
- `high_quality` rendering only changes the resolution of an image, so it is not modelled.
- File-system effects are not modelled: directory creation and image files are a set of page numbers, and a file that exists is a member of it.
- The `torch.set_num_threads` call is not modelled.
- The `use_fast` fallback when loading the TrOCR processor is not modelled, because both branches register the same key.
- Logging and `verbose` printing are not modelled.
- Network calls, the language models, the OCR libraries and `json.loads` are oracles; none of their behaviour is modelled.
- AiExtraction.RunChain: identical requests are assumed to get identical answers, because `Services` is a fixed function of the message. The source samples at temperature 0.1 (lib/ai_extraction.py:69) and turns a raised call into `None` (lib/ai_extraction.py:72), so its raw-text retry (lib/ai_extraction.py:215-216) can succeed after a multimodal request with the same message failed (lib/ai_extraction.py:202-204). That retry, which happens whenever OCR adds no text, is not modelled: in the model it always repeats the multimodal answer. The equal answers in `AiExtraction.OnlyLeadingTextMatters` rest on the same assumption.
- Python's `str.lower`/`str.strip`/`str.split()` are modelled on ASCII only; Unicode case folding and whitespace are not.
- The streaming run cannot be modelled as written. lib/pipeline.py:152 passes a `shared_advanced_ai` keyword that `extract_hybrid_data` (lib/ai_extraction.py:165-173) does not accept, so Python would raise on the first page. The model takes the per-page extraction as a parameter and proves the loop's structure around it. No parity between the batch and streaming results is claimed.
- A document with zero pages is falsy in Python and loaded in the model. `Analyzer.ExtractBasicInfo` therefore gives `PdfInfo(0)` where the source returns `None`, which the pipeline turns into `{}`.
- `AdvancedDocumentAi.LayoutStyle` drops the constant `"extraction_method"` key of the returned dictionary.
- PageClassifier.StrategyFor: drops the human-readable `reason` text of each strategy entry (lib/pdf_analyzer.py:183, 190, 197); the entry keeps the stripped length that text reports.
- `AdvancedDocumentAi.TablesOf` models table records with their id and confidence only, because the source always leaves `rows` empty.
- `Pipeline.ProcessDocumentStreaming` returns the number of processed pages as an out-parameter; the source keeps it in a local variable.
- On pages where the intro score beats the product score, the code tries the tabular/part-number rule first (lib/pdf_analyzer.py:263-271). A tabular page with part numbers is therefore a product page even when intro words dominate. The model follows the code.
- `AdvancedDocumentAi.ConfidentLines`: its own contract only bounds the length; what it keeps is stated in `ConfidentLinesMembers` and `ConfidentLinesAppend`.
- PdfAnalyzer.Analyzer.DetectTablesAndImages: assumes every page image write succeeds; a failed `pix.save` raises out of `detect_tables_and_images` in the source (lib/pdf_analyzer.py:150), and that exception is not modelled.
- PdfAnalyzer.Analyzer.NextPage: assumes the image write of a rendered page succeeds; a failed `pix.save` raises out of `iter_pages` in the source (lib/pdf_analyzer.py:107), and that exception is not modelled. Only `RenderPageImage` models a failed write.
