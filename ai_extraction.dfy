/**
 * The language-model side of lib/ai_extraction.py: which backend a request
 * goes to, how a model's answer is cleaned and narrowed to the JSON text
 * handed to the parser, which pages the hybrid extraction visits, and the
 * per-page fallback chain (multimodal, then raw text, then the page image)
 * whose items are concatenated in page order.
 *
 * The language models and `json.loads` are oracles: `Services` maps each
 * request to the answer (`None` when the call raised or gave no content) and
 * `Setting.parse` maps a text to the JSON value it denotes (`None` when it
 * raises).
 */
module AiExtraction {
  import opened Wrappers
  import opened TextUtil
  import opened PageClassifier
  import opened AdvancedDocumentAi
  import opened Seqs

  /** The JSON values a model may answer with. */
  datatype Json =
    | JNull
    | JBool(b: bool)
    | JNumber(n: real)
    | JString(s: string)
    | JArray(items: seq<Json>)
    | JObject(members: seq<(string, Json)>)

  /** What each backend answers to a text request or to a prompt with a page image. */
  datatype Services = Services(
    openaiText: string -> Option<string>,
    geminiText: string -> Option<string>,
    openaiImage: (string, ImageRef) -> Option<string>,
    geminiImage: (string, ImageRef) -> Option<string>)

  /** `AIDataExtractor`: which backends are in use. */
  datatype Extractor = Extractor(useOpenai: bool, useGemini: bool)

  /** Everything one extraction run needs besides the pages. */
  datatype Setting = Setting(
    extractor: Extractor,
    services: Services,
    parse: string -> Option<Json>,
    prompt: Option<string>)

  // ---------------------------------------------------------------------
  // backend choice
  // ---------------------------------------------------------------------

  /** The constructor: a backend is used when it is requested and its API key is set and non-empty. */
  function NewExtractor(useOpenai: bool, useGemini: bool, openaiKey: Option<string>, googleKey: Option<string>): (x: Extractor)
    ensures x.useOpenai <==> useOpenai && openaiKey.Some? && openaiKey.value != ""
    ensures x.useGemini <==> useGemini && googleKey.Some? && googleKey.value != ""
  {
    Extractor(useOpenai && openaiKey.Some? && openaiKey.value != "",
              useGemini && googleKey.Some? && googleKey.value != "")
  }

  const MaxTextChars: nat := 8000

  /** `text[:n]`. */
  function Truncate(s: string, n: nat): (r: string)
    ensures |r| <= n && StartsWith(s, r)
    ensures |s| <= n ==> r == s
  {
    if |s| <= n then s else s[..n]
  }

  /** The user message sent to either model: the prompt, a header and at most 8000 characters of text. */
  function UserMessage(prompt: string, text: string): (m: string)
    ensures StartsWith(m, prompt)
    ensures |m| <= |prompt| + 19 + MaxTextChars
  {
    prompt + "\n\nText to analyze:\n" + Truncate(text, MaxTextChars)
  }

  /** A prompt counts only when it is given and non-empty. */
  predicate HasPrompt(prompt: Option<string>) {
    prompt.Some? && prompt.value != ""
  }

  /** `extract_structured_data`: OpenAI when in use, else Gemini, else nothing. */
  function ExtractStructuredData(x: Extractor, services: Services, text: string, prompt: Option<string>): (r: Option<string>)
    ensures !HasPrompt(prompt) || (!x.useOpenai && !x.useGemini) ==> r.None?
    ensures HasPrompt(prompt) && x.useOpenai ==> r == services.openaiText(UserMessage(prompt.value, text))
    ensures HasPrompt(prompt) && !x.useOpenai && x.useGemini ==> r == services.geminiText(UserMessage(prompt.value, text))
  {
    if !HasPrompt(prompt) then None
    else if x.useOpenai then services.openaiText(UserMessage(prompt.value, text))
    else if x.useGemini then services.geminiText(UserMessage(prompt.value, text))
    else None
  }

  /** Only the first 8000 characters of the text reach the model. */
  lemma OnlyLeadingTextMatters(x: Extractor, services: Services, a: string, b: string, prompt: Option<string>)
    requires Truncate(a, MaxTextChars) == Truncate(b, MaxTextChars)
    ensures HasPrompt(prompt) ==> UserMessage(prompt.value, a) == UserMessage(prompt.value, b)
    ensures ExtractStructuredData(x, services, a, prompt) == ExtractStructuredData(x, services, b, prompt)
  {
  }

  /** `extract_from_image`: the same backend choice for a prompt with a page image. */
  function ExtractFromImage(x: Extractor, services: Services, image: ImageRef, prompt: Option<string>): (r: Option<string>)
    ensures !HasPrompt(prompt) || (!x.useOpenai && !x.useGemini) ==> r.None?
    ensures HasPrompt(prompt) && x.useOpenai ==> r == services.openaiImage(prompt.value, image)
    ensures HasPrompt(prompt) && !x.useOpenai && x.useGemini ==> r == services.geminiImage(prompt.value, image)
  {
    if !HasPrompt(prompt) then None
    else if x.useOpenai then services.openaiImage(prompt.value, image)
    else if x.useGemini then services.geminiImage(prompt.value, image)
    else None
  }

  // ---------------------------------------------------------------------
  // cleaning a model's answer
  // ---------------------------------------------------------------------

  /** The last line of a fenced answer is dropped when it is a closing fence. */
  function DropClosingFence(lines: seq<string>): seq<string> {
    if |lines| > 0 && Strip(lines[|lines| - 1]) == "```" then lines[..|lines| - 1] else lines
  }

  /** The first line of a fenced answer is dropped when it opens a fence. */
  function DropOpeningFence(lines: seq<string>): seq<string> {
    if |lines| > 0 && StartsWith(lines[0], "```") then lines[1..] else lines
  }

  /**
   * The Markdown-fence removal of `validate_extracted_data`: a "```json"
   * answer loses every "```json" and every "```"; any other fenced answer
   * loses its opening line and a closing-fence last line.
   */
  function CleanResponse(response: string): (cleaned: string)
    ensures !StartsWith(Strip(response), "```") ==> cleaned == Strip(response)
    ensures cleaned != [] ==> !IsSpace(cleaned[0]) && !IsSpace(cleaned[|cleaned| - 1])
  {
    var stripped := Strip(response);
    if StartsWith(stripped, "```json") then
      Strip(RemoveAll(RemoveAll(stripped, "```json"), "```"))
    else if StartsWith(stripped, "```") then
      Strip(Join("\n", DropClosingFence(DropOpeningFence(Split(stripped, '\n')))))
    else stripped
  }

  /** A "```json" fence around a payload without backticks cleans to the stripped payload. */
  lemma JsonFenceRoundTrip(payload: string)
    requires '`' !in payload
    ensures CleanResponse("```json\n" + payload + "\n```") == Strip(payload)
  {
    var fenced := "```json\n" + payload + "\n```";
    StripUnchanged(fenced);
    assert StartsWith(fenced, "```json");
    var inner := "\n" + payload + "\n";
    assert '`' !in inner;
    assert fenced == "```json" + (inner + "```");
    assert "```json" <= fenced;
    assert RemoveAll(fenced, "```json") == RemoveAll(inner + "```", "```json");
    RemoveAllSkipsPrefix(inner, "```", "```json");
    RemoveAllShort("```", "```json");
    RemoveAllSkipsPrefix(inner, "```", "```");
    assert RemoveAll("```", "```") == RemoveAll("", "```");
    assert inner + "" == "\n" + payload + "\n";
    StripSurrounded("\n", payload, "\n");
  }

  /** A fence whose tag is not "json" does not start with "```json". */
  lemma FenceNotJson(tag: string, rest: string)
    requires '\n' !in tag && !StartsWith(tag, "json")
    ensures !StartsWith("```" + tag + "\n" + rest, "```json")
  {
    var fenced := "```" + tag + "\n" + rest;
    if |tag| >= 4 {
      assert fenced[3..7] == tag[..4];
      assert "```json"[3..7] == "json";
    } else {
      assert fenced[3 + |tag|] == '\n';
    }
  }

  /** The lines of a fenced answer: the opening line, the payload's lines, the closing fence. */
  lemma FenceLines(opening: string, payload: string)
    requires '\n' !in opening
    ensures Split(opening + "\n" + payload + "\n```", '\n') == [opening] + Split(payload, '\n') + ["```"]
  {
    SplitNoSeparator(opening, '\n');
    SplitNoSeparator("```", '\n');
    assert opening + "\n" + payload + "\n```" == opening + ['\n'] + (payload + ['\n'] + "```");
    SplitConcat(opening, payload + ['\n'] + "```", '\n');
    SplitConcat(payload, "```", '\n');
  }

  /** Dropping the opening line and the closing fence leaves the lines between them. */
  lemma DropFences(opening: string, pieces: seq<string>)
    requires StartsWith(opening, "```")
    ensures DropClosingFence(DropOpeningFence([opening] + pieces + ["```"])) == pieces
  {
    assert DropOpeningFence([opening] + pieces + ["```"]) == pieces + ["```"];
    StripUnchanged("```");
  }

  /** A stripped answer opened by a fence other than "```json" takes the line-dropping branch. */
  lemma CleanOtherFence(response: string)
    requires Strip(response) == response && StartsWith(response, "```") && !StartsWith(response, "```json")
    ensures CleanResponse(response) == Strip(Join("\n", DropClosingFence(DropOpeningFence(Split(response, '\n')))))
  {
  }

  /** An opening line, the payload and a closing fence, cleaned by the line-dropping branch. */
  lemma CleanFenced(opening: string, payload: string)
    requires StartsWith(opening, "```") && '\n' !in opening
    requires !StartsWith(opening + "\n" + payload + "\n```", "```json")
    ensures CleanResponse(opening + "\n" + payload + "\n```") == Strip(payload)
  {
    var fenced := opening + "\n" + payload + "\n```";
    assert fenced[0] == '`' && fenced[|fenced| - 1] == '`';
    StripUnchanged(fenced);
    assert StartsWith(fenced, "```") by {
      assert fenced[..3] == opening[..3];
    }
    CleanOtherFence(fenced);
    FenceLines(opening, payload);
    DropFences(opening, Split(payload, '\n'));
    JoinSplit(payload, '\n');
  }

  /**
   * Any other fence ("```" and a language tag that is not "json") cleans to
   * the stripped payload, whatever the payload holds.
   */
  lemma FenceRoundTrip(tag: string, payload: string)
    requires '\n' !in tag && !StartsWith(tag, "json")
    ensures CleanResponse("```" + tag + "\n" + payload + "\n```") == Strip(payload)
  {
    var opening := "```" + tag;
    assert opening + "\n" + payload + "\n```" == "```" + tag + "\n" + (payload + "\n```");
    FenceNotJson(tag, payload + "\n```");
    assert '\n' !in opening;
    CleanFenced(opening, payload);
  }

  // ---------------------------------------------------------------------
  // the candidate handed to the parser
  // ---------------------------------------------------------------------

  /**
   * The span the non-greedy `\[.*?\]` (or `\{.*?\}`) with DOTALL finds: from
   * the first opening character to the first closing one after it.
   */
  function FirstSpan(s: string, open: char, close: char): (r: Option<(nat, nat)>)
    ensures r.Some? ==> r.value.0 < r.value.1 < |s| && s[r.value.0] == open && s[r.value.1] == close
    ensures r.Some? ==> forall k :: 0 <= k < r.value.0 ==> s[k] != open
    ensures r.Some? ==> forall k :: r.value.0 < k < r.value.1 ==> s[k] != close
    ensures r.None? ==> forall a, b :: 0 <= a < b < |s| && s[a] == open ==> s[b] != close
  {
    match IndexOf(s, open, 0)
    case None => None
    case Some(i) =>
      match IndexOf(s, close, i + 1)
      case None => None
      case Some(j) => Some((i, j))
  }

  /** The text of a span found by `FirstSpan`. */
  function SpanText(s: string, open: char, close: char, i: nat, j: nat): (c: string)
    requires i < j < |s| && s[i] == open && s[j] == close
    requires forall k :: i < k < j ==> s[k] != close
    ensures |c| >= 2 && c[0] == open && c[|c| - 1] == close
    ensures forall k :: 0 < k < |c| - 1 ==> c[k] != close
    ensures Contains(s, c)
  {
    assert OccursAt(s, s[i..j + 1], i);
    s[i..j + 1]
  }

  /**
   * The text `validate_extracted_data` hands to the parser: the first array
   * span, else the first object span, else the whole cleaned answer.
   */
  function Candidate(cleaned: string): (c: string)
    ensures Contains(cleaned, c)
    ensures FirstSpan(cleaned, '[', ']').Some? ==>
              |c| >= 2 && c[0] == '[' && c[|c| - 1] == ']' && forall k :: 0 < k < |c| - 1 ==> c[k] != ']'
    ensures FirstSpan(cleaned, '[', ']').None? && FirstSpan(cleaned, '{', '}').Some? ==>
              |c| >= 2 && c[0] == '{' && c[|c| - 1] == '}' && forall k :: 0 < k < |c| - 1 ==> c[k] != '}'
    ensures FirstSpan(cleaned, '[', ']').None? && FirstSpan(cleaned, '{', '}').None? ==> c == cleaned
    ensures FirstSpan(cleaned, '[', ']').Some? ==>
              c == cleaned[FirstSpan(cleaned, '[', ']').value.0..FirstSpan(cleaned, '[', ']').value.1 + 1]
    ensures FirstSpan(cleaned, '[', ']').None? && FirstSpan(cleaned, '{', '}').Some? ==>
              c == cleaned[FirstSpan(cleaned, '{', '}').value.0..FirstSpan(cleaned, '{', '}').value.1 + 1]
  {
    var arraySpan := FirstSpan(cleaned, '[', ']');
    var objectSpan := FirstSpan(cleaned, '{', '}');
    if arraySpan.Some? then SpanText(cleaned, '[', ']', arraySpan.value.0, arraySpan.value.1)
    else if objectSpan.Some? then SpanText(cleaned, '{', '}', objectSpan.value.0, objectSpan.value.1)
    else
      assert OccursAt(cleaned, cleaned, 0);
      cleaned
  }

  /** `validate_extracted_data`: clean, narrow to the candidate, parse; a failing parse gives `None`. */
  function ValidateExtractedData(response: string, parse: string -> Option<Json>): (r: Option<Json>)
    ensures var cleaned := CleanResponse(response);
            var arraySpan := FirstSpan(cleaned, '[', ']');
            var objectSpan := FirstSpan(cleaned, '{', '}');
            r == parse(if arraySpan.Some? then cleaned[arraySpan.value.0..arraySpan.value.1 + 1]
                       else if objectSpan.Some? then cleaned[objectSpan.value.0..objectSpan.value.1 + 1]
                       else cleaned)
  {
    parse(Candidate(CleanResponse(response)))
  }

  /**
   * An array span is parsed alone: when it does not parse, the object span
   * and the whole answer are not tried.
   */
  lemma ArraySpanDecides(response: string, parse: string -> Option<Json>)
    requires FirstSpan(CleanResponse(response), '[', ']').Some?
    ensures var cleaned := CleanResponse(response);
            var span := FirstSpan(cleaned, '[', ']').value;
            ValidateExtractedData(response, parse) == parse(cleaned[span.0..span.1 + 1])
  {
  }

  /** A bracketed body without brackets is its own candidate. */
  lemma BracketedIsCandidate(body: string)
    requires ']' !in body && '[' !in body
    ensures Candidate("[" + body + "]") == "[" + body + "]"
  {
    var payload := "[" + body + "]";
    assert IndexOf(payload, '[', 0) == Some(0);
    assert payload[|payload| - 1] == ']';
    assert forall k :: 1 <= k < |payload| - 1 ==> payload[k] != ']';
    assert FirstSpan(payload, '[', ']') == Some((0, |payload| - 1));
    assert payload[0..|payload|] == payload;
  }

  /** A fenced JSON array whose only `]` is its last character reaches the parser whole. */
  lemma FencedArrayReachesParser(body: string, parse: string -> Option<Json>)
    requires '`' !in body && ']' !in body && '[' !in body
    ensures ValidateExtractedData("```json\n[" + body + "]\n```", parse) == parse("[" + body + "]")
  {
    var payload := "[" + body + "]";
    assert "```json\n[" + body + "]\n```" == "```json\n" + payload + "\n```";
    assert '`' !in payload;
    JsonFenceRoundTrip(payload);
    StripUnchanged(payload);
    assert CleanResponse("```json\n" + payload + "\n```") == payload;
    BracketedIsCandidate(body);
  }

  // ---------------------------------------------------------------------
  // items and the page filter
  // ---------------------------------------------------------------------

  /** Only a non-empty JSON array contributes items: its elements. */
  function ItemsOf(parsed: Option<Json>): (items: seq<Json>)
    ensures items != [] <==> parsed.Some? && parsed.value.JArray? && parsed.value.items != []
    ensures items != [] ==> parsed == Some(JArray(items))
  {
    if parsed.Some? && parsed.value.JArray? then parsed.value.items else []
  }

  /** The items of a model answer: none for a missing or empty answer. */
  function AnswerItems(answer: Option<string>, parse: string -> Option<Json>): seq<Json> {
    if answer.Some? && answer.value != "" then ItemsOf(ValidateExtractedData(answer.value, parse)) else []
  }

  /** The page numbers an analysis marks as product pages. */
  function ProductPageNumbers(analysis: seq<Analysis>): (nums: set<int>)
    ensures forall n :: n in nums <==> exists a :: a in analysis && a.isProductPage && a.page == n
  {
    set a | a in analysis && a.isProductPage :: a.page
  }

  /** The pages whose number is in `nums`, in their original order. */
  function FilterPages(pages: seq<Page>, nums: set<int>): (kept: seq<Page>)
    ensures |kept| <= |pages|
    ensures forall p :: p in kept <==> p in pages && p.pageNumber in nums
  {
    if |pages| == 0 then []
    else
      var last := pages[|pages| - 1];
      FilterPages(pages[..|pages| - 1], nums) + (if last.pageNumber in nums then [last] else [])
  }

  /** The filter keeps the page order: it distributes over concatenation. */
  lemma {:induction false} FilterPagesAppend(a: seq<Page>, b: seq<Page>, nums: set<int>)
    ensures FilterPages(a + b, nums) == FilterPages(a, nums) + FilterPages(b, nums)
    decreases |b|
  {
    if |b| > 0 {
      assert (a + b)[..|a + b| - 1] == a + b[..|b| - 1];
      FilterPagesAppend(a, b[..|b| - 1], nums);
    } else {
      assert a + b == a;
    }
  }

  /** The pages `extract_hybrid_data` visits: the analysed product pages, or all pages without an analysis. */
  function PagesToProcess(pages: seq<Page>, analysis: Option<seq<Analysis>>): (selected: seq<Page>)
    ensures analysis.None? || analysis.value == [] ==> selected == pages
    ensures analysis.Some? && analysis.value != [] ==>
              forall p :: p in selected <==> p in pages && exists a :: a in analysis.value && a.isProductPage && a.page == p.pageNumber
  {
    if analysis.Some? && analysis.value != [] then FilterPages(pages, ProductPageNumbers(analysis.value)) else pages
  }

  /** An analysis that flags no page leaves no page to process. */
  lemma NoProductPageNoWork(pages: seq<Page>, analysis: seq<Analysis>)
    requires analysis != [] && forall a :: a in analysis ==> !a.isProductPage
    ensures PagesToProcess(pages, Some(analysis)) == []
  {
    assert ProductPageNumbers(analysis) == {};
    FilterPagesNoNumbers(pages);
  }

  lemma {:induction false} FilterPagesNoNumbers(pages: seq<Page>)
    ensures FilterPages(pages, {}) == []
  {
    if |pages| > 0 {
      FilterPagesNoNumbers(pages[..|pages| - 1]);
    }
  }

  // ---------------------------------------------------------------------
  // the per-page fallback chain
  // ---------------------------------------------------------------------

  datatype Step = MultimodalStep | RawTextStep | VisionStep

  /** What the chain did for one page: the steps it ran, in order, and the items it kept. */
  datatype PageRun = PageRun(steps: seq<Step>, items: seq<Json>)

  /** A step that is not eligible or that found nothing. */
  predicate FoundNothing(step: Option<seq<Json>>) {
    step.None? || step.value == []
  }

  /**
   * The fallback chain of one page, given for each step whether it is
   * eligible and what it yields when it runs: a step runs only while no item
   * was found, and the items of the step that found some are kept.
   */
  function RunChain(multimodal: Option<seq<Json>>, rawText: Option<seq<Json>>, vision: Option<seq<Json>>): (run: PageRun)
    ensures MultimodalStep in run.steps <==> multimodal.Some?
    ensures RawTextStep in run.steps <==> rawText.Some? && FoundNothing(multimodal)
    ensures VisionStep in run.steps <==> vision.Some? && FoundNothing(multimodal) && FoundNothing(rawText)
    ensures run.items != [] ==> run.steps != []
    ensures run.items != [] && run.steps[|run.steps| - 1] == MultimodalStep ==> run.items == multimodal.value
    ensures run.items != [] && run.steps[|run.steps| - 1] == RawTextStep ==> run.items == rawText.value
    ensures run.items != [] && run.steps[|run.steps| - 1] == VisionStep ==> run.items == vision.value
    ensures run.items == [] ==> FoundNothing(multimodal) && FoundNothing(rawText) && FoundNothing(vision)
  {
    var s1 := if multimodal.Some? then [MultimodalStep] else [];
    var i1 := if multimodal.Some? then multimodal.value else [];
    var s2 := if i1 == [] && rawText.Some? then s1 + [RawTextStep] else s1;
    var i2 := if i1 == [] && rawText.Some? then rawText.value else i1;
    var s3 := if i2 == [] && vision.Some? then s2 + [VisionStep] else s2;
    var i3 := if i2 == [] && vision.Some? then vision.value else i2;
    PageRun(s3, i3)
  }

  /** The items the chain keeps: those of the first step that found some, else none. */
  lemma RunChainItems(multimodal: Option<seq<Json>>, rawText: Option<seq<Json>>, vision: Option<seq<Json>>)
    ensures RunChain(multimodal, rawText, vision).items ==
      if !FoundNothing(multimodal) then multimodal.value
      else if !FoundNothing(rawText) then rawText.value
      else if vision.Some? then vision.value
      else []
  {
  }

  /** The multimodal step: the layout-style text (or the raw text when that is empty) sent to the model. */
  function MultimodalItems(st: Setting, e: Engines, page: Page): seq<Json> {
    var layout := LayoutStyle(e, page.pageNumber, Some(page.rawText));
    var enhanced := if layout.combinedText == "" then page.rawText else layout.combinedText;
    AnswerItems(ExtractStructuredData(st.extractor, st.services, enhanced, st.prompt), st.parse)
  }

  function RawTextItems(st: Setting, page: Page): seq<Json> {
    AnswerItems(ExtractStructuredData(st.extractor, st.services, page.rawText, st.prompt), st.parse)
  }

  function VisionItems(st: Setting, page: Page): seq<Json> {
    AnswerItems(ExtractFromImage(st.extractor, st.services, page.pageNumber, st.prompt), st.parse)
  }

  /**
   * One page of `extract_hybrid_data`: the multimodal step is eligible when
   * the helper exists and the page image is present, the raw-text step when
   * the stripped text is longer than 100, the vision step when the image is
   * present.
   */
  function RunPage(st: Setting, ai: Option<Engines>, page: Page, images: set<ImageRef>): PageRun {
    var hasImage := page.pageNumber in images;
    RunChain(
      if ai.Some? && hasImage then Some(MultimodalItems(st, ai.value, page)) else None,
      if |Strip(page.rawText)| > 100 then Some(RawTextItems(st, page)) else None,
      if hasImage then Some(VisionItems(st, page)) else None)
  }

  /** The concatenated items of the pages, in page order. */
  function HybridItems(st: Setting, ai: Option<Engines>, pages: seq<Page>, images: set<ImageRef>): seq<Json> {
    FlatMap((p: Page) => RunPage(st, ai, p, images).items, pages)
  }

  /** The accumulated items distribute over a split of the page list. */
  lemma HybridItemsAppend(st: Setting, ai: Option<Engines>, a: seq<Page>, b: seq<Page>, images: set<ImageRef>)
    ensures HybridItems(st, ai, a + b, images) == HybridItems(st, ai, a, images) + HybridItems(st, ai, b, images)
  {
    FlatMapAppend((p: Page) => RunPage(st, ai, p, images).items, a, b);
  }

  /** One more page adds its own items at the end. */
  lemma HybridItemsStep(st: Setting, ai: Option<Engines>, pages: seq<Page>, i: nat, images: set<ImageRef>)
    requires i < |pages|
    ensures HybridItems(st, ai, pages[..i + 1], images) == HybridItems(st, ai, pages[..i], images) + RunPage(st, ai, pages[i], images).items
  {
    assert pages[..i + 1][..i] == pages[..i];
  }

  /** The engines of the helper `extract_hybrid_data` builds: no TrOCR, PaddleOCR and EasyOCR enabled. */
  function HybridEngines(useAdvancedAi: bool, env: Environment, backends: Backends): Option<Engines> {
    if useAdvancedAi then
      Some(Engines(RegisteredOcr(Flags(false, true, true), env), RegisteredCloud(env), backends))
    else None
  }

  /** The multimodal step of one page, run through the helper's layout-style extraction. */
  method RunMultimodalStep(st: Setting, advancedAi: DocumentAI, page: Page) returns (items: seq<Json>)
    ensures items == MultimodalItems(st, advancedAi.Snapshot(), page)
  {
    var multimodal := advancedAi.ExtractWithLayoutlmStyle(page.pageNumber, Some(page.rawText));
    var enhancedText := if multimodal.combinedText == "" then page.rawText else multimodal.combinedText;
    var textResult := ExtractStructuredData(st.extractor, st.services, enhancedText, st.prompt);
    items := AnswerItems(textResult, st.parse);
  }

  /** The body of the page loop of `extract_hybrid_data`: the fallback chain for one page. */
  method ExtractPageItems(st: Setting, advancedAi: DocumentAI?, ghost ai: Option<Engines>, page: Page, images: set<ImageRef>)
    returns (extractedItems: seq<Json>)
    requires advancedAi != null <==> ai.Some?
    requires advancedAi != null ==> advancedAi.Snapshot() == ai.value
    ensures extractedItems == RunPage(st, ai, page, images).items
  {
    var hasImage := page.pageNumber in images;
    ghost var multimodal: Option<seq<Json>> := None;
    ghost var rawStep: Option<seq<Json>> := None;
    ghost var vision: Option<seq<Json>> := None;
    extractedItems := [];
    if advancedAi != null && hasImage {
      extractedItems := RunMultimodalStep(st, advancedAi, page);
      multimodal := Some(extractedItems);
    }
    if |Strip(page.rawText)| > 100 {
      rawStep := Some(RawTextItems(st, page));
      if extractedItems == [] {
        extractedItems := RawTextItems(st, page);
      }
    }
    if hasImage {
      vision := Some(VisionItems(st, page));
      if extractedItems == [] {
        extractedItems := VisionItems(st, page);
      }
    }
    RunChainItems(multimodal, rawStep, vision);
  }

  /** `extract_hybrid_data`: the items of the pages to process, concatenated in page order. */
  method ExtractHybridData(st: Setting, pages: seq<Page>, images: set<ImageRef>, analysis: Option<seq<Analysis>>,
                           useAdvancedAi: bool, env: Environment, backends: Backends)
    returns (allItems: seq<Json>)
    ensures allItems == HybridItems(st, HybridEngines(useAdvancedAi, env, backends), PagesToProcess(pages, analysis), images)
  {
    var advancedAi: DocumentAI? := null;
    if useAdvancedAi {
      advancedAi := new DocumentAI(Flags(false, true, true), env, backends);
    }
    var pagesToProcess := PagesToProcess(pages, analysis);
    allItems := ExtractPages(st, advancedAi, HybridEngines(useAdvancedAi, env, backends), pagesToProcess, images);
  }

  /** The page loop of `extract_hybrid_data`: each page's items are appended in page order. */
  method ExtractPages(st: Setting, advancedAi: DocumentAI?, ghost ai: Option<Engines>, pages: seq<Page>, images: set<ImageRef>)
    returns (allItems: seq<Json>)
    requires advancedAi != null <==> ai.Some?
    requires advancedAi != null ==> advancedAi.Snapshot() == ai.value
    ensures allItems == HybridItems(st, ai, pages, images)
  {
    allItems := [];
    for i := 0 to |pages|
      invariant allItems == HybridItems(st, ai, pages[..i], images)
    {
      var extractedItems := ExtractPageItems(st, advancedAi, ai, pages[i], images);
      HybridItemsStep(st, ai, pages, i, images);
      if extractedItems != [] {
        allItems := allItems + extractedItems;
      }
    }
    assert pages[..|pages|] == pages;
  }
}
