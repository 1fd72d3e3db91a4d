/**
 * The document-AI helper of lib/advanced_document_ai.py: which OCR and cloud
 * engines get registered, the "auto" choice among them, the confidence filter
 * on OCR lines, the Textract text join, the multi-engine run, the ranking of
 * its results and the merge of the best OCR text into the page text.
 *
 * The engines themselves (their construction and their inference) are
 * oracles: `Environment` says which libraries import and which constructors
 * succeed, and `Backends` says what each engine returns for an image, `None`
 * standing for a call that raised.
 */
module AdvancedDocumentAi {
  import opened Wrappers
  import opened TextUtil

  /** A page image `page_<n>.png` in the temporary directory, named by its page number. */
  type ImageRef = int

  /** The keys of `ocr_engines`. */
  datatype OcrKey = EasyOcr | PaddleOcr | TrocrProcessor | TrocrModel

  /** The keys of `cloud_services`. */
  datatype CloudKey = Textract | GcpVision

  /** Which optional libraries import, and whether constructing each engine succeeds. */
  datatype Environment = Environment(
    easyOcrImports: bool,
    paddleOcrImports: bool,
    trocrImports: bool,
    awsImports: bool,
    gcpVisionImports: bool,
    easyOcrLoads: bool,
    paddleOcrLoads: bool,
    trocrProcessorLoads: bool,
    trocrModelLoads: bool,
    textractLoads: bool,
    gcpVisionLoads: bool)

  /** The `enable_*` arguments of the constructor. */
  datatype Flags = Flags(enableTrocr: bool, enablePaddleOcr: bool, enableEasyOcr: bool)

  /** One recognised line of an OCR engine: its text and its confidence. */
  datatype OcrLine = OcrLine(text: string, confidence: real)

  /** A Textract block: `BlockType`, the optional `Text`, `Id` and `Confidence`. */
  datatype Block = Block(blockType: string, text: Option<string>, id: Option<string>, confidence: Option<real>)

  /** What `_process_textract_table` keeps of a table block (its rows are always empty). */
  datatype TableInfo = TableInfo(id: Option<string>, confidence: real)

  /** An engine's output: plain text, or Textract's `{"text", "tables"}` dictionary. */
  datatype EngineResult = Plain(text: string) | Structured(text: string, tables: seq<TableInfo>)

  /** One entry of the `multi_engine_extraction` dictionary. */
  datatype Entry = Entry(engine: string, result: EngineResult)

  /** The inference calls of the engines; `None` means the call raised. */
  datatype Backends = Backends(
    paddleOcr: ImageRef -> Option<seq<OcrLine>>,
    easyOcr: ImageRef -> Option<seq<OcrLine>>,
    trocr: ImageRef -> Option<string>,
    textract: ImageRef -> Option<seq<Block>>,
    gcpVision: ImageRef -> Option<seq<string>>)

  /** The registered engines together with what they answer. */
  datatype Engines = Engines(ocr: set<OcrKey>, cloud: set<CloudKey>, backends: Backends)

  /** The dictionary key under which each OCR engine is stored. */
  function OcrKeyNamed(name: string): Option<OcrKey> {
    if name == "easyocr" then Some(EasyOcr)
    else if name == "paddleocr" then Some(PaddleOcr)
    else if name == "trocr_processor" then Some(TrocrProcessor)
    else if name == "trocr_model" then Some(TrocrModel)
    else None
  }

  // ---------------------------------------------------------------------
  // engine registration
  // ---------------------------------------------------------------------

  predicate Imports(env: Environment, k: OcrKey) {
    match k
    case EasyOcr => env.easyOcrImports
    case PaddleOcr => env.paddleOcrImports
    case _ => env.trocrImports
  }

  predicate Enabled(flags: Flags, k: OcrKey) {
    match k
    case EasyOcr => flags.enableEasyOcr
    case PaddleOcr => flags.enablePaddleOcr
    case _ => flags.enableTrocr
  }

  predicate Loads(env: Environment, k: OcrKey) {
    match k
    case EasyOcr => env.easyOcrLoads
    case PaddleOcr => env.paddleOcrLoads
    case TrocrProcessor => env.trocrProcessorLoads
    case TrocrModel => env.trocrModelLoads
  }

  /** A dictionary assignment that happens only when its guard holds. */
  function AddIf<K>(s: set<K>, guard: bool, k: K): set<K> {
    if guard then s + {k} else s
  }

  /** The OCR keys after `_initialize_engines` ran its steps on the keys in `start`. */
  function OcrAfter(start: set<OcrKey>, flags: Flags, env: Environment): set<OcrKey> {
    var trocr := env.trocrImports && flags.enableTrocr && env.trocrProcessorLoads;
    var s1 := AddIf(start, env.easyOcrImports && flags.enableEasyOcr && env.easyOcrLoads, EasyOcr);
    var s2 := AddIf(s1, env.paddleOcrImports && flags.enablePaddleOcr && env.paddleOcrLoads, PaddleOcr);
    var s3 := AddIf(s2, trocr, TrocrProcessor);
    AddIf(s3, trocr && env.trocrModelLoads, TrocrModel)
  }

  /** The cloud keys after `_initialize_engines` ran its steps on the keys in `start`. */
  function CloudAfter(start: set<CloudKey>, env: Environment): set<CloudKey> {
    AddIf(AddIf(start, env.awsImports && env.textractLoads, Textract),
          env.gcpVisionImports && env.gcpVisionLoads, GcpVision)
  }

  /**
   * The OCR engines `_initialize_engines` registers: an engine needs its
   * library, its enable flag and a constructor that does not raise; the TrOCR
   * model is only loaded after its processor was.
   */
  function RegisteredOcr(flags: Flags, env: Environment): (s: set<OcrKey>)
    ensures forall k :: k in s ==> Imports(env, k) && Enabled(flags, k) && Loads(env, k)
    ensures EasyOcr in s <==> env.easyOcrImports && flags.enableEasyOcr && env.easyOcrLoads
    ensures PaddleOcr in s <==> env.paddleOcrImports && flags.enablePaddleOcr && env.paddleOcrLoads
    ensures TrocrProcessor in s <==> env.trocrImports && flags.enableTrocr && env.trocrProcessorLoads
    ensures TrocrModel in s <==> TrocrProcessor in s && env.trocrModelLoads
  {
    OcrAfter({}, flags, env)
  }

  /** The cloud services: they need their library and a client, and no flag. */
  function RegisteredCloud(env: Environment): (s: set<CloudKey>)
    ensures Textract in s <==> env.awsImports && env.textractLoads
    ensures GcpVision in s <==> env.gcpVisionImports && env.gcpVisionLoads
  {
    CloudAfter({}, env)
  }

  /** Switching an engine off never registers more engines. */
  lemma DisablingShrinksRegistration(flags: Flags, env: Environment)
    ensures RegisteredOcr(flags.(enableTrocr := false), env) <= RegisteredOcr(flags, env)
    ensures RegisteredOcr(flags.(enablePaddleOcr := false), env) <= RegisteredOcr(flags, env)
    ensures RegisteredOcr(flags.(enableEasyOcr := false), env) <= RegisteredOcr(flags, env)
    ensures RegisteredOcr(flags.(enableTrocr := false), env) * {TrocrProcessor, TrocrModel} == {}
  {
  }

  // ---------------------------------------------------------------------
  // OCR: auto choice and the confidence filter
  // ---------------------------------------------------------------------

  /** The engine "auto" stands for: paddleocr, then easyocr, then TrOCR. */
  function AutoOcr(ocr: set<OcrKey>): (m: Option<string>)
    ensures m == Some("paddleocr") <==> PaddleOcr in ocr
    ensures m == Some("easyocr") <==> PaddleOcr !in ocr && EasyOcr in ocr
    ensures m == Some("trocr") <==> PaddleOcr !in ocr && EasyOcr !in ocr && TrocrProcessor in ocr
    ensures m.None? <==> PaddleOcr !in ocr && EasyOcr !in ocr && TrocrProcessor !in ocr
  {
    if PaddleOcr in ocr then Some("paddleocr")
    else if EasyOcr in ocr then Some("easyocr")
    else if TrocrProcessor in ocr then Some("trocr")
    else None
  }

  /** The texts of the lines read with confidence above one half, in reading order. */
  function ConfidentLines(lines: seq<OcrLine>): (texts: seq<string>)
    ensures |texts| <= |lines|
  {
    if |lines| == 0 then []
    else
      var last := lines[|lines| - 1];
      ConfidentLines(lines[..|lines| - 1]) + (if last.confidence > 0.5 then [last.text] else [])
  }

  /** Exactly the texts of the lines read with confidence above one half are kept. */
  lemma {:induction false} ConfidentLinesMembers(lines: seq<OcrLine>)
    ensures forall i :: 0 <= i < |lines| && lines[i].confidence > 0.5 ==> lines[i].text in ConfidentLines(lines)
    ensures forall t :: t in ConfidentLines(lines) ==>
              exists i :: 0 <= i < |lines| && lines[i].text == t && lines[i].confidence > 0.5
  {
    if |lines| > 0 {
      var n := |lines| - 1;
      var init := lines[..n];
      ConfidentLinesMembers(init);
      var tail := if lines[n].confidence > 0.5 then [lines[n].text] else [];
      assert ConfidentLines(lines) == ConfidentLines(init) + tail;
      forall i | 0 <= i < n ensures lines[i] == init[i] {
      }
    }
  }

  /** The filter keeps the order of the lines: it distributes over concatenation. */
  lemma {:induction false} ConfidentLinesAppend(a: seq<OcrLine>, b: seq<OcrLine>)
    ensures ConfidentLines(a + b) == ConfidentLines(a) + ConfidentLines(b)
    decreases |b|
  {
    if |b| > 0 {
      var n := |b| - 1;
      var tail := if b[n].confidence > 0.5 then [b[n].text] else [];
      assert (a + b)[..|a + b| - 1] == a + b[..n] && (a + b)[|a + b| - 1] == b[n];
      assert ConfidentLines(a + b) == ConfidentLines(a + b[..n]) + tail;
      assert ConfidentLines(b) == ConfidentLines(b[..n]) + tail;
      ConfidentLinesAppend(a, b[..n]);
    } else {
      assert a + b == a;
    }
  }

  /** The text an OCR engine's lines give: the confident lines joined by newlines. */
  function ConfidentText(lines: seq<OcrLine>): string {
    Join("\n", ConfidentLines(lines))
  }

  /** The loop of `extract_with_advanced_ocr` that collects the confident lines. */
  method JoinConfident(lines: seq<OcrLine>) returns (text: string)
    ensures text == ConfidentText(lines)
  {
    var kept: seq<string> := [];
    for i := 0 to |lines|
      invariant kept == ConfidentLines(lines[..i])
    {
      assert lines[..i + 1][..i] == lines[..i];
      if lines[i].confidence > 0.5 {
        kept := kept + [lines[i].text];
      }
    }
    assert lines[..|lines|] == lines;
    text := Join("\n", kept);
  }

  /** `extract_with_advanced_ocr(image, method)` over a snapshot of the engines. */
  function AdvancedOcr(e: Engines, image: ImageRef, engine: string): (r: Option<string>)
    ensures engine == "paddleocr" && r.Some? ==> PaddleOcr in e.ocr && e.backends.paddleOcr(image).Some?
    ensures engine == "easyocr" && r.Some? ==> EasyOcr in e.ocr && e.backends.easyOcr(image).Some?
    ensures engine == "trocr" && r.Some? ==> TrocrProcessor in e.ocr && TrocrModel in e.ocr
    ensures engine !in {"auto", "paddleocr", "easyocr", "trocr"} ==> r.None?
    ensures engine == "paddleocr" ==>
              r == (if PaddleOcr in e.ocr && e.backends.paddleOcr(image).Some?
                    then Some(ConfidentText(e.backends.paddleOcr(image).value)) else None)
    ensures engine == "easyocr" ==>
              r == (if EasyOcr in e.ocr && e.backends.easyOcr(image).Some?
                    then Some(ConfidentText(e.backends.easyOcr(image).value)) else None)
    ensures engine == "trocr" ==>
              r == (if TrocrProcessor in e.ocr && TrocrModel in e.ocr then e.backends.trocr(image) else None)
  {
    var chosen := if engine == "auto" then AutoOcr(e.ocr) else Some(engine);
    if chosen.None? then None
    else if chosen.value == "paddleocr" && PaddleOcr in e.ocr then
      (match e.backends.paddleOcr(image)
       case None => None
       case Some(lines) => Some(ConfidentText(lines)))
    else if chosen.value == "easyocr" && EasyOcr in e.ocr then
      (match e.backends.easyOcr(image)
       case None => None
       case Some(lines) => Some(ConfidentText(lines)))
    else if chosen.value == "trocr" && TrocrProcessor in e.ocr then
      // a missing `trocr_model` raises KeyError, which is caught
      (if TrocrModel in e.ocr then e.backends.trocr(image) else None)
    else None
  }

  /** "auto" answers exactly what the engine it stands for answers, and `None` without one. */
  lemma AutoOcrIsPreferredEngine(e: Engines, image: ImageRef)
    ensures AutoOcr(e.ocr).None? ==> AdvancedOcr(e, image, "auto").None?
    ensures AutoOcr(e.ocr).Some? ==> AdvancedOcr(e, image, "auto") == AdvancedOcr(e, image, AutoOcr(e.ocr).value)
  {
  }

  // ---------------------------------------------------------------------
  // cloud services and Textract
  // ---------------------------------------------------------------------

  /** An optional text, missing as "": `block.get("Text", "")` and `text or ""`. */
  function TextOrEmpty(t: Option<string>): string {
    if t.Some? then t.value else ""
  }

  /** The texts of the `LINE` blocks, in order. */
  function LineTexts(blocks: seq<Block>): (texts: seq<string>)
    ensures |texts| <= |blocks|
    ensures forall i :: 0 <= i < |blocks| && blocks[i].blockType == "LINE" ==> TextOrEmpty(blocks[i].text) in texts
    ensures forall t :: t in texts ==> exists i :: 0 <= i < |blocks| && blocks[i].blockType == "LINE" && TextOrEmpty(blocks[i].text) == t
  {
    if |blocks| == 0 then []
    else
      var last := blocks[|blocks| - 1];
      LineTexts(blocks[..|blocks| - 1]) + (if last.blockType == "LINE" then [TextOrEmpty(last.text)] else [])
  }

  /** `_extract_textract_text`: the `LINE` texts joined by newlines. */
  function TextractText(blocks: seq<Block>): string {
    Join("\n", LineTexts(blocks))
  }

  /** Without a `LINE` block Textract's text is empty. */
  lemma {:induction false} NoLineBlocksNoText(blocks: seq<Block>)
    requires forall i :: 0 <= i < |blocks| ==> blocks[i].blockType != "LINE"
    ensures LineTexts(blocks) == [] && TextractText(blocks) == ""
  {
    if |blocks| > 0 {
      NoLineBlocksNoText(blocks[..|blocks| - 1]);
    }
  }

  /** The loop of `_extract_textract_text`. */
  method ExtractTextractText(blocks: seq<Block>) returns (text: string)
    ensures text == TextractText(blocks)
  {
    var textBlocks: seq<string> := [];
    for i := 0 to |blocks|
      invariant textBlocks == LineTexts(blocks[..i])
    {
      assert blocks[..i + 1][..i] == blocks[..i];
      if blocks[i].blockType == "LINE" {
        textBlocks := textBlocks + [TextOrEmpty(blocks[i].text)];
      }
    }
    assert blocks[..|blocks|] == blocks;
    text := Join("\n", textBlocks);
  }

  /** The `LINE` texts keep the block order: they distribute over concatenation. */
  lemma {:induction false} LineTextsAppend(a: seq<Block>, b: seq<Block>)
    ensures LineTexts(a + b) == LineTexts(a) + LineTexts(b)
    decreases |b|
  {
    if |b| > 0 {
      var n := |b| - 1;
      assert (a + b)[..|a + b| - 1] == a + b[..n];
      assert (a + b)[|a + b| - 1] == b[n];
      LineTextsAppend(a, b[..n]);
    } else {
      assert a + b == a;
    }
  }

  /** A single block contributes its text exactly when it is a `LINE` block. */
  lemma LineTextsOfBlock(b: Block)
    ensures LineTexts([b]) == if b.blockType == "LINE" then [TextOrEmpty(b.text)] else []
  {
    assert [b][..0] == [];
  }

  /** `_process_textract_table`: the id and the confidence (0 when missing). */
  function TableOf(block: Block): TableInfo {
    TableInfo(block.id, if block.confidence.Some? then block.confidence.value else 0.0)
  }

  /** One table summary per `TABLE` block, in order. */
  function TablesOf(blocks: seq<Block>): (tables: seq<TableInfo>)
    ensures |tables| <= |blocks|
    ensures forall i :: 0 <= i < |blocks| && blocks[i].blockType == "TABLE" ==> TableOf(blocks[i]) in tables
    ensures forall t :: t in tables ==> exists i :: 0 <= i < |blocks| && blocks[i].blockType == "TABLE" && TableOf(blocks[i]) == t
  {
    if |blocks| == 0 then []
    else
      var last := blocks[|blocks| - 1];
      TablesOf(blocks[..|blocks| - 1]) + (if last.blockType == "TABLE" then [TableOf(last)] else [])
  }

  /** The table records keep the block order: they distribute over concatenation. */
  lemma {:induction false} TablesOfAppend(a: seq<Block>, b: seq<Block>)
    ensures TablesOf(a + b) == TablesOf(a) + TablesOf(b)
    decreases |b|
  {
    if |b| > 0 {
      var n := |b| - 1;
      assert (a + b)[..|a + b| - 1] == a + b[..n];
      assert (a + b)[|a + b| - 1] == b[n];
      TablesOfAppend(a, b[..n]);
    } else {
      assert a + b == a;
    }
  }

  /** A single block gives one table record exactly when it is a `TABLE` block. */
  lemma TablesOfBlock(b: Block)
    ensures TablesOf([b]) == if b.blockType == "TABLE" then [TableOf(b)] else []
  {
    assert [b][..0] == [];
  }

  /** The service "auto" stands for: Textract, then Google Vision. */
  function AutoCloud(cloud: set<CloudKey>): (s: Option<string>)
    ensures s == Some("textract") <==> Textract in cloud
    ensures s == Some("gcp_vision") <==> Textract !in cloud && GcpVision in cloud
    ensures s.None? <==> Textract !in cloud && GcpVision !in cloud
  {
    if Textract in cloud then Some("textract")
    else if GcpVision in cloud then Some("gcp_vision")
    else None
  }

  /** `extract_with_cloud_services(image, service)` over a snapshot of the engines. */
  function CloudService(e: Engines, image: ImageRef, service: string): (r: Option<EngineResult>)
    ensures r.Some? && r.value.Structured? ==> Textract in e.cloud && e.backends.textract(image).Some?
    ensures r.Some? && r.value.Plain? ==> GcpVision in e.cloud && e.backends.gcpVision(image).Some?
    ensures service !in {"auto", "textract", "gcp_vision"} ==> r.None?
    ensures service == "textract" ==>
              r == (if Textract in e.cloud && e.backends.textract(image).Some?
                    then Some(Structured(TextractText(e.backends.textract(image).value),
                                         TablesOf(e.backends.textract(image).value)))
                    else None)
    ensures service == "gcp_vision" ==>
              r == (if GcpVision in e.cloud && e.backends.gcpVision(image).Some? && e.backends.gcpVision(image).value != []
                    then Some(Plain(e.backends.gcpVision(image).value[0])) else None)
  {
    var chosen := if service == "auto" then AutoCloud(e.cloud) else Some(service);
    if chosen.None? then None
    else if chosen.value == "textract" && Textract in e.cloud then
      (match e.backends.textract(image)
       case None => None
       case Some(blocks) => Some(Structured(TextractText(blocks), TablesOf(blocks))))
    else if chosen.value == "gcp_vision" && GcpVision in e.cloud then
      (match e.backends.gcpVision(image)
       case None => None
       case Some(annotations) => if |annotations| == 0 then None else Some(Plain(annotations[0])))
    else None
  }

  /** "auto" answers exactly what the service it stands for answers. */
  lemma AutoCloudIsPreferredService(e: Engines, image: ImageRef)
    ensures AutoCloud(e.cloud).None? ==> CloudService(e, image, "auto").None?
    ensures AutoCloud(e.cloud).Some? ==> CloudService(e, image, "auto") == CloudService(e, image, AutoCloud(e.cloud).value)
  {
  }

  // ---------------------------------------------------------------------
  // the multi-engine run
  // ---------------------------------------------------------------------

  const OcrOrder: seq<string> := ["paddleocr", "easyocr", "trocr"]
  const CloudOrder: seq<string> := ["textract", "gcp_vision"]

  /** Python truthiness of an engine result: a non-empty string or a (non-empty) dictionary. */
  predicate Truthy(r: EngineResult) {
    r.Structured? || r.text != ""
  }

  /** Whether `multi_engine_extraction` asks the OCR engine `name`. */
  predicate OcrAttempted(ocr: set<OcrKey>, name: string) {
    (OcrKeyNamed(name).Some? && OcrKeyNamed(name).value in ocr) || (name == "trocr" && TrocrProcessor in ocr)
  }

  /** The entry the OCR engine `name` contributes: at most one, with a non-empty text. */
  function OcrEntry(e: Engines, image: ImageRef, name: string): (r: seq<Entry>)
    ensures |r| <= 1
    ensures r != [] ==> OcrAttempted(e.ocr, name) && r[0].engine == name && r[0].result.Plain? && r[0].result.text != ""
    ensures OcrAttempted(e.ocr, name) && AdvancedOcr(e, image, name).Some? && AdvancedOcr(e, image, name).value != "" ==>
              r == [Entry(name, Plain(AdvancedOcr(e, image, name).value))]
    ensures r != [] ==> AdvancedOcr(e, image, name) == Some(r[0].result.text)
  {
    if OcrAttempted(e.ocr, name) then
      var text := AdvancedOcr(e, image, name);
      if text.Some? && text.value != "" then [Entry(name, Plain(text.value))] else []
    else []
  }

  /** The entry the cloud service `name` contributes: at most one, with a truthy result. */
  function CloudEntry(e: Engines, image: ImageRef, name: string): (r: seq<Entry>)
    ensures |r| <= 1
    ensures r != [] ==> r[0].engine == name && Truthy(r[0].result)
    ensures r != [] ==> CloudService(e, image, name) == Some(r[0].result)
    ensures ((name == "textract" && Textract in e.cloud) || (name == "gcp_vision" && GcpVision in e.cloud))
            && CloudService(e, image, name).Some? && Truthy(CloudService(e, image, name).value) ==>
              r == [Entry(name, CloudService(e, image, name).value)]
  {
    var key := if name == "textract" then Some(Textract) else if name == "gcp_vision" then Some(GcpVision) else None;
    if key.Some? && key.value in e.cloud then
      var result := CloudService(e, image, name);
      if result.Some? && Truthy(result.value) then [Entry(name, result.value)] else []
    else []
  }

  function OcrEntries(e: Engines, image: ImageRef, names: seq<string>): seq<Entry> {
    if |names| == 0 then []
    else OcrEntries(e, image, names[..|names| - 1]) + OcrEntry(e, image, names[|names| - 1])
  }

  function CloudEntries(e: Engines, image: ImageRef, names: seq<string>): seq<Entry> {
    if |names| == 0 then []
    else CloudEntries(e, image, names[..|names| - 1]) + CloudEntry(e, image, names[|names| - 1])
  }

  /** The dictionary `multi_engine_extraction` returns, as its entries in insertion order. */
  function MultiResults(e: Engines, image: ImageRef): seq<Entry> {
    OcrEntries(e, image, OcrOrder) + CloudEntries(e, image, CloudOrder)
  }

  lemma OcrEntriesOfThree(e: Engines, image: ImageRef, names: seq<string>)
    requires |names| == 3
    ensures OcrEntries(e, image, names)
         == OcrEntry(e, image, names[0]) + OcrEntry(e, image, names[1]) + OcrEntry(e, image, names[2])
  {
    var two := names[..2];
    var one := names[..1];
    assert two[..1] == one && two[1] == names[1] && one[0] == names[0] && one[..0] == [];
    assert OcrEntries(e, image, one) == OcrEntry(e, image, names[0]);
    assert OcrEntries(e, image, two) == OcrEntries(e, image, one) + OcrEntry(e, image, names[1]);
    assert OcrEntries(e, image, names) == OcrEntries(e, image, two) + OcrEntry(e, image, names[2]);
  }

  lemma CloudEntriesOfTwo(e: Engines, image: ImageRef, names: seq<string>)
    requires |names| == 2
    ensures CloudEntries(e, image, names) == CloudEntry(e, image, names[0]) + CloudEntry(e, image, names[1])
  {
    var one := names[..1];
    assert one[0] == names[0] && one[..0] == [];
    assert CloudEntries(e, image, one) == CloudEntry(e, image, names[0]);
    assert CloudEntries(e, image, names) == CloudEntries(e, image, one) + CloudEntry(e, image, names[1]);
  }

  /**
   * The engines are asked in the fixed order paddleocr, easyocr, trocr,
   * textract, gcp_vision.
   */
  lemma MultiResultsInFixedOrder(e: Engines, image: ImageRef)
    ensures MultiResults(e, image)
         == OcrEntry(e, image, "paddleocr") + OcrEntry(e, image, "easyocr") + OcrEntry(e, image, "trocr")
          + CloudEntry(e, image, "textract") + CloudEntry(e, image, "gcp_vision")
  {
    OcrEntriesOfThree(e, image, OcrOrder);
    CloudEntriesOfTwo(e, image, CloudOrder);
  }

  /** Every recorded OCR answer is truthy. */
  lemma {:induction false} OcrEntriesTruthy(e: Engines, image: ImageRef, names: seq<string>)
    ensures forall i :: 0 <= i < |OcrEntries(e, image, names)| ==> Truthy(OcrEntries(e, image, names)[i].result)
  {
    if |names| > 0 {
      OcrEntriesTruthy(e, image, names[..|names| - 1]);
    }
  }

  /** Every recorded cloud answer is truthy. */
  lemma {:induction false} CloudEntriesTruthy(e: Engines, image: ImageRef, names: seq<string>)
    ensures forall i :: 0 <= i < |CloudEntries(e, image, names)| ==> Truthy(CloudEntries(e, image, names)[i].result)
  {
    if |names| > 0 {
      CloudEntriesTruthy(e, image, names[..|names| - 1]);
    }
  }

  /** Only truthy answers are recorded. */
  lemma MultiResultsTruthy(e: Engines, image: ImageRef)
    ensures forall i :: 0 <= i < |MultiResults(e, image)| ==> Truthy(MultiResults(e, image)[i].result)
  {
    OcrEntriesTruthy(e, image, OcrOrder);
    CloudEntriesTruthy(e, image, CloudOrder);
  }

  // ---------------------------------------------------------------------
  // ranking
  // ---------------------------------------------------------------------

  /** The score of `get_best_extraction`: text length, plus 100 per Textract table. */
  function Score(r: EngineResult): nat {
    match r
    case Plain(text) => |text|
    case Structured(text, tables) => |text| + 100 * |tables|
  }

  /** The position `get_best_extraction` ends on: the first entry of greatest positive score. */
  function BestIndex(rs: seq<Entry>): (b: Option<nat>)
    ensures b.Some? ==> b.value < |rs| && Score(rs[b.value].result) > 0
    ensures b.Some? ==> forall j :: 0 <= j < |rs| ==> Score(rs[j].result) <= Score(rs[b.value].result)
    ensures b.Some? ==> forall j :: 0 <= j < b.value ==> Score(rs[j].result) < Score(rs[b.value].result)
    ensures b.None? <==> forall j :: 0 <= j < |rs| ==> Score(rs[j].result) == 0
  {
    if |rs| == 0 then None
    else
      var prev := BestIndex(rs[..|rs| - 1]);
      var bestScore := if prev.Some? then Score(rs[prev.value].result) else 0;
      if Score(rs[|rs| - 1].result) > bestScore then Some(|rs| - 1) else prev
  }

  /** `get_best_extraction`: the result at `BestIndex`, `None` for an empty or all-zero input. */
  function SelectBest(rs: seq<Entry>): Option<EngineResult> {
    var b := BestIndex(rs);
    if b.Some? then Some(rs[b.value].result) else None
  }

  // ---------------------------------------------------------------------
  // the layout-style merge
  // ---------------------------------------------------------------------

  /** The text of the best result, `""` when there is none. */
  function BestOcrText(results: seq<Entry>): string {
    var best := SelectBest(results);
    if |results| == 0 || best.None? then "" else best.value.text
  }

  /** The combined text: the page text, and the OCR text after a blank line when it is new. */
  function MergeText(text: Option<string>, ocr: string): (combined: string)
    ensures StartsWith(combined, TextOrEmpty(text))
    ensures Contains(combined, ocr)
    ensures combined == TextOrEmpty(text) <==> ocr == "" || Contains(TextOrEmpty(text), ocr)
    ensures combined != TextOrEmpty(text) ==> combined == TextOrEmpty(text) + "\n\n" + ocr
  {
    var base := TextOrEmpty(text);
    if ocr != "" && !Contains(base, ocr) then
      ContainsInfix(base + "\n\n", ocr, "");
      assert base + "\n\n" + ocr + "" == base + "\n\n" + ocr;
      base + "\n\n" + ocr
    else
      assert OccursAt(base, "", 0);
      base
  }

  /** Merging the same OCR text twice changes nothing the second time. */
  lemma MergeIdempotent(text: Option<string>, ocr: string)
    ensures MergeText(Some(MergeText(text, ocr)), ocr) == MergeText(text, ocr)
  {
  }

  /** The result of `extract_with_layoutlm_style`. */
  datatype LayoutResult = LayoutResult(combinedText: string, ocrResults: seq<Entry>, image: ImageRef)

  /** `extract_with_layoutlm_style` over a snapshot of the engines. */
  function LayoutStyle(e: Engines, image: ImageRef, text: Option<string>): LayoutResult {
    var results := MultiResults(e, image);
    LayoutResult(MergeText(text, BestOcrText(results)), results, image)
  }

  // ---------------------------------------------------------------------
  // the helper object
  // ---------------------------------------------------------------------

  /** `AdvancedDocumentAI`: the engines registered at construction. */
  class DocumentAI {
    const flags: Flags
    const backends: Backends
    var ocrEngines: set<OcrKey>
    var cloudServices: set<CloudKey>

    constructor (flags: Flags, env: Environment, backends: Backends)
      ensures this.flags == flags && this.backends == backends
      ensures ocrEngines == RegisteredOcr(flags, env)
      ensures cloudServices == RegisteredCloud(env)
    {
      this.flags := flags;
      this.backends := backends;
      ocrEngines := {};
      cloudServices := {};
      new;
      InitializeEngines(env);
    }

    function Snapshot(): Engines
      reads this
    {
      Engines(ocrEngines, cloudServices, backends)
    }

    /** `_initialize_engines`: each engine is tried in turn and kept if nothing raised. */
    method InitializeEngines(env: Environment)
      modifies this`ocrEngines, this`cloudServices
      ensures ocrEngines == OcrAfter(old(ocrEngines), flags, env)
      ensures cloudServices == CloudAfter(old(cloudServices), env)
    {
      if env.easyOcrImports && flags.enableEasyOcr && env.easyOcrLoads {
        ocrEngines := ocrEngines + {EasyOcr};
      }
      if env.paddleOcrImports && flags.enablePaddleOcr && env.paddleOcrLoads {
        ocrEngines := ocrEngines + {PaddleOcr};
      }
      if env.trocrImports && flags.enableTrocr && env.trocrProcessorLoads {
        ocrEngines := ocrEngines + {TrocrProcessor};
        if env.trocrModelLoads {
          ocrEngines := ocrEngines + {TrocrModel};
        }
      }
      if env.awsImports && env.textractLoads {
        cloudServices := cloudServices + {Textract};
      }
      if env.gcpVisionImports && env.gcpVisionLoads {
        cloudServices := cloudServices + {GcpVision};
      }
    }

    /** `extract_with_advanced_ocr`. */
    method ExtractWithAdvancedOcr(image: ImageRef, engine: string) returns (r: Option<string>)
      ensures r == AdvancedOcr(Snapshot(), image, engine)
    {
      var chosen := engine;
      if engine == "auto" {
        if PaddleOcr in ocrEngines {
          chosen := "paddleocr";
        } else if EasyOcr in ocrEngines {
          chosen := "easyocr";
        } else if TrocrProcessor in ocrEngines {
          chosen := "trocr";
        } else {
          return None;
        }
      }
      if chosen == "paddleocr" && PaddleOcr in ocrEngines {
        var result := backends.paddleOcr(image);
        if result.None? {
          return None;
        }
        var text := JoinConfident(result.value);
        return Some(text);
      }
      if chosen == "easyocr" && EasyOcr in ocrEngines {
        var result := backends.easyOcr(image);
        if result.None? {
          return None;
        }
        var text := JoinConfident(result.value);
        return Some(text);
      }
      if chosen == "trocr" && TrocrProcessor in ocrEngines {
        if TrocrModel !in ocrEngines {
          return None;
        }
        return backends.trocr(image);
      }
      return None;
    }

    /** `extract_with_cloud_services`. */
    method ExtractWithCloudServices(image: ImageRef, service: string) returns (r: Option<EngineResult>)
      ensures r == CloudService(Snapshot(), image, service)
    {
      var chosen := service;
      if service == "auto" {
        if Textract in cloudServices {
          chosen := "textract";
        } else if GcpVision in cloudServices {
          chosen := "gcp_vision";
        } else {
          return None;
        }
      }
      if chosen == "textract" && Textract in cloudServices {
        var response := backends.textract(image);
        if response.None? {
          return None;
        }
        var blocks := response.value;
        var tables: seq<TableInfo> := [];
        for i := 0 to |blocks|
          invariant tables == TablesOf(blocks[..i])
        {
          assert blocks[..i + 1][..i] == blocks[..i];
          if blocks[i].blockType == "TABLE" {
            tables := tables + [TableOf(blocks[i])];
          }
        }
        assert blocks[..|blocks|] == blocks;
        var text := ExtractTextractText(blocks);
        return Some(Structured(text, tables));
      }
      if chosen == "gcp_vision" && GcpVision in cloudServices {
        var response := backends.gcpVision(image);
        if response.None? || |response.value| == 0 {
          return None;
        }
        return Some(Plain(response.value[0]));
      }
      return None;
    }

    /** One OCR step of `multi_engine_extraction`: ask the engine when registered, keep a non-empty text. */
    method OcrStep(image: ImageRef, name: string) returns (entry: seq<Entry>)
      ensures entry == OcrEntry(Snapshot(), image, name)
    {
      entry := [];
      if OcrAttempted(ocrEngines, name) {
        var result := ExtractWithAdvancedOcr(image, name);
        if result.Some? && result.value != "" {
          entry := [Entry(name, Plain(result.value))];
        }
      }
    }

    /** One cloud step of `multi_engine_extraction`: ask the service when registered, keep a truthy result. */
    method CloudStep(image: ImageRef, name: string) returns (entry: seq<Entry>)
      requires name == "textract" || name == "gcp_vision"
      ensures entry == CloudEntry(Snapshot(), image, name)
    {
      entry := [];
      var key := if name == "textract" then Textract else GcpVision;
      if key in cloudServices {
        var result := ExtractWithCloudServices(image, name);
        if result.Some? && Truthy(result.value) {
          entry := [Entry(name, result.value)];
        }
      }
    }

    /** `multi_engine_extraction`: every registered engine, truthy answers only. */
    method MultiEngineExtraction(image: ImageRef) returns (results: seq<Entry>)
      ensures results == MultiResults(Snapshot(), image)
    {
      results := [];
      for i := 0 to |OcrOrder|
        invariant results == OcrEntries(Snapshot(), image, OcrOrder[..i])
      {
        assert OcrOrder[..i + 1][..i] == OcrOrder[..i];
        var entry := OcrStep(image, OcrOrder[i]);
        results := results + entry;
      }
      assert OcrOrder[..|OcrOrder|] == OcrOrder;
      ghost var ocrPart := results;
      for i := 0 to |CloudOrder|
        invariant results == ocrPart + CloudEntries(Snapshot(), image, CloudOrder[..i])
      {
        assert CloudOrder[..i + 1][..i] == CloudOrder[..i];
        var entry := CloudStep(image, CloudOrder[i]);
        results := results + entry;
      }
      assert CloudOrder[..|CloudOrder|] == CloudOrder;
    }

    /** `get_best_extraction`: keeps the first result whose score beats every earlier one. */
    method GetBestExtraction(multiResults: seq<Entry>) returns (best: Option<EngineResult>)
      ensures best == SelectBest(multiResults)
    {
      if |multiResults| == 0 {
        return None;
      }
      best := None;
      var bestScore := 0;
      ghost var bestAt: Option<nat> := None;
      for i := 0 to |multiResults|
        invariant bestAt == BestIndex(multiResults[..i])
        invariant bestAt.Some? ==> bestAt.value < i
        invariant best == (if bestAt.Some? then Some(multiResults[bestAt.value].result) else None)
        invariant bestScore == (if bestAt.Some? then Score(multiResults[bestAt.value].result) else 0)
      {
        assert multiResults[..i + 1][..i] == multiResults[..i];
        var score := Score(multiResults[i].result);
        if score > bestScore {
          bestScore := score;
          best := Some(multiResults[i].result);
          bestAt := Some(i);
        }
      }
      assert multiResults[..|multiResults|] == multiResults;
    }

    /** `extract_with_layoutlm_style`: the page text merged with the best OCR text. */
    method ExtractWithLayoutlmStyle(image: ImageRef, text: Option<string>) returns (r: LayoutResult)
      ensures r == LayoutStyle(Snapshot(), image, text)
    {
      var ocrResults := MultiEngineExtraction(image);
      var bestOcrText := "";
      if |ocrResults| > 0 {
        var best := GetBestExtraction(ocrResults);
        if best.Some? {
          bestOcrText := best.value.text;
        }
      }
      r := LayoutResult(MergeText(text, bestOcrText), ocrResults, image);
    }
  }
}
