/** The classification half of the AI gateway: building the request for a new
    accounting error, and turning the service's untrusted structured answer into an
    analysis whose category and priority are members of their enumerations, with a
    fixed fallback on any failure. The network call and `JSON.parse` are parameters. */
module GeminiService {
  import opened Wrappers
  import opened Types

  /** One part of a request: the prompt text, or an inline image. */
  datatype Part = TextPart(text: string) | InlineData(mimeType: string, data: string)

  /** What is sent to the service: model name, parts, the requested response MIME
      type and the fields the response schema marks as required. */
  datatype Request = Request(model: string, parts: seq<Part>, responseMimeType: string, requiredFields: seq<string>)

  const ModelName: string := "gemini-3-flash-preview"
  const JsonMimeType: string := "application/json"
  const ImageMimeType: string := "image/jpeg"
  const ResponseFields: seq<string> := ["category", "priority", "suggestion", "potentialImpact"]

  /** The fixed instruction text before and after the description. */
  const PromptHead: string := "Bạn là một chuyên gia kế toán cao cấp am hiểu hệ thống Microsoft Dynamics 365 và Excel. \n  Hãy phân tích lỗi sau đây và trả về kết quả dưới dạng JSON.\n  Mô tả lỗi: "
  const PromptTail: string := "\n  \n  Yêu cầu:\n  1. Phân loại danh mục (Hóa đơn, Thanh toán, Thuế, Sổ cái, Hệ thống, Khác).\n  2. Đánh giá mức độ ưu tiên.\n  3. Đưa ra gợi ý cách khắc phục cụ thể, ưu tiên các bước thao tác trên phần mềm kế toán hoặc các hàm Excel nếu cần.\n  4. Đánh giá tác động tiềm tàng."

  /** The prompt embeds the description verbatim between the two fixed texts. */
  function Prompt(description: string): (p: string)
    ensures |p| == |PromptHead| + |description| + |PromptTail|
    ensures p[..|PromptHead|] == PromptHead
    ensures p[|PromptHead|..|PromptHead| + |description|] == description
    ensures p[|PromptHead| + |description|..] == PromptTail
  {
    PromptHead + description + PromptTail
  }

  /** JavaScript truthiness of an optional string: present and non-empty. */
  predicate Truthy(s: Option<string>)
  {
    s.Some? && s.value != ""
  }

  /** The request parts: the prompt, then the image when it is truthy. */
  function RequestParts(description: string, base64Image: Option<string>): (parts: seq<Part>)
    ensures 1 <= |parts| <= 2
    ensures parts[0] == TextPart(Prompt(description))
    ensures |parts| == 2 <==> Truthy(base64Image)
    ensures |parts| == 2 ==> parts[1] == InlineData(ImageMimeType, base64Image.value)
  {
    var contents := [TextPart(Prompt(description))];
    if Truthy(base64Image) then contents + [InlineData(ImageMimeType, base64Image.value)] else contents
  }

  function BuildRequest(description: string, base64Image: Option<string>): (req: Request)
    ensures req.parts == RequestParts(description, base64Image)
    ensures req.model == ModelName && req.responseMimeType == JsonMimeType
    ensures req.requiredFields == ResponseFields
  {
    Request(ModelName, RequestParts(description, base64Image), JsonMimeType, ResponseFields)
  }

  /** The outcome of the network call: it threw, or it answered with a text that the
      SDK may leave undefined. */
  datatype GenerateOutcome = CallFailed | Responded(text: Option<string>)

  /** The four properties read off the parsed JSON value; `None` is `undefined`. */
  datatype RawFields = RawFields(category: Option<string>, priority: Option<string>,
                                 suggestion: Option<string>, potentialImpact: Option<string>)

  const NoFields: RawFields := RawFields(None, None, None, None)

  /** What `JSON.parse` yields: it threw (or the value cannot be read from), or
      the fields of the value. */
  datatype ParseResult = ParseFailed | Parsed(fields: RawFields)

  /** The analysis handed back to the caller (`AIAnalysisResponse`). */
  datatype AnalysisResponse = AnalysisResponse(category: Category, priority: Priority,
                                               suggestion: Option<string>, potentialImpact: Option<string>)

  const FallbackSuggestion: string := "Không thể phân tích tự động. Kiểm tra hệ thống Microsoft ERP."
  const FallbackImpact: string := "Cần rà soát dữ liệu."

  /** The fixed answer returned from the `catch` branch. */
  const Fallback: AnalysisResponse := AnalysisResponse(Other, Medium, Some(FallbackSuggestion), Some(FallbackImpact))

  /** The text handed to the parser: the response text, or `{}` when it is falsy. */
  function ParserInput(text: Option<string>): (t: string)
    ensures Truthy(text) ==> t == text.value
    ensures !Truthy(text) ==> t == "{}"
  {
    if Truthy(text) then text.value else "{}"
  }

  /** A raw category that is exactly one of the enumeration's strings is kept; anything
      else, including a missing one, becomes OTHER. */
  function CoerceCategory(raw: Option<string>): (c: Category)
    ensures raw.Some? && raw.value in CategoryValues ==> CategoryValue(c) == raw.value
    ensures !(raw.Some? && raw.value in CategoryValues) ==> c == Other
  {
    if raw.Some? && raw.value in CategoryValues then CategoryFromValue(raw.value).value else Other
  }

  /** A raw priority that is exactly one of the enumeration's strings is kept; anything
      else, including a missing one, becomes MEDIUM. */
  function CoercePriority(raw: Option<string>): (p: Priority)
    ensures raw.Some? && raw.value in PriorityValues ==> PriorityValue(p) == raw.value
    ensures !(raw.Some? && raw.value in PriorityValues) ==> p == Medium
  {
    if raw.Some? && raw.value in PriorityValues then PriorityFromValue(raw.value).value else Medium
  }

  /** The object built from a successfully parsed answer. */
  function Coerce(f: RawFields): (r: AnalysisResponse)
    ensures r.category == CoerceCategory(f.category) && r.priority == CoercePriority(f.priority)
    ensures r.suggestion == f.suggestion && r.potentialImpact == f.potentialImpact
  {
    AnalysisResponse(CoerceCategory(f.category), CoercePriority(f.priority), f.suggestion, f.potentialImpact)
  }

  /** `analyzeAccountingError`: ask the service, parse its text (`{}` when empty), coerce
      the fields; a failed call or a failed parse gives the fallback. */
  function Analyze(description: string, base64Image: Option<string>,
                   generate: Request -> GenerateOutcome, parse: string -> ParseResult): (r: AnalysisResponse)
    ensures generate(BuildRequest(description, base64Image)).CallFailed? ==> r == Fallback
    ensures generate(BuildRequest(description, base64Image)).Responded? ==>
      var parsed := parse(ParserInput(generate(BuildRequest(description, base64Image)).text));
      r == if parsed.ParseFailed? then Fallback else Coerce(parsed.fields)
  {
    match generate(BuildRequest(description, base64Image))
    case CallFailed => Fallback
    case Responded(text) =>
      match parse(ParserInput(text))
      case ParseFailed => Fallback
      case Parsed(fields) => Coerce(fields)
  }

  /** Whatever the service and the parser do, the category string handed back is the
      parsed category string when that string is one of the enumeration's values, and
      `Khác` (OTHER) in every other case, failures included; likewise the priority string
      is the parsed one or `MEDIUM`. So an unknown raw string never passes through. */
  lemma AnalyzeYieldsEnumMembers(description: string, base64Image: Option<string>,
                                 generate: Request -> GenerateOutcome, parse: string -> ParseResult)
    ensures var out := generate(BuildRequest(description, base64Image));
      var r := Analyze(description, base64Image, generate, parse);
      if out.Responded? && parse(ParserInput(out.text)).Parsed?
         && parse(ParserInput(out.text)).fields.category.Some?
         && parse(ParserInput(out.text)).fields.category.value in CategoryValues
      then CategoryValue(r.category) == parse(ParserInput(out.text)).fields.category.value
      else CategoryValue(r.category) == "Khác"
    ensures var out := generate(BuildRequest(description, base64Image));
      var r := Analyze(description, base64Image, generate, parse);
      if out.Responded? && parse(ParserInput(out.text)).Parsed?
         && parse(ParserInput(out.text)).fields.priority.Some?
         && parse(ParserInput(out.text)).fields.priority.value in PriorityValues
      then PriorityValue(r.priority) == parse(ParserInput(out.text)).fields.priority.value
      else PriorityValue(r.priority) == "MEDIUM"
    ensures CategoryValue(Analyze(description, base64Image, generate, parse).category) in CategoryValues
    ensures PriorityValue(Analyze(description, base64Image, generate, parse).priority) in PriorityValues
  {
    var r := Analyze(description, base64Image, generate, parse);
    CategoryRoundTrip(r.category);
    PriorityRoundTrip(r.priority);
  }

  /** A parsed answer whose category and priority are exact enumeration strings, with
      any suggestion and impact, comes back with those strings unchanged. */
  lemma AnalyzePassesThroughKnownValues(description: string, base64Image: Option<string>,
                                        generate: Request -> GenerateOutcome, parse: string -> ParseResult,
                                        f: RawFields)
    requires generate(BuildRequest(description, base64Image)).Responded?
    requires parse(ParserInput(generate(BuildRequest(description, base64Image)).text)) == Parsed(f)
    requires f.category.Some? && f.category.value in CategoryValues
    requires f.priority.Some? && f.priority.value in PriorityValues
    ensures CategoryValue(Analyze(description, base64Image, generate, parse).category) == f.category.value
    ensures PriorityValue(Analyze(description, base64Image, generate, parse).priority) == f.priority.value
    ensures Analyze(description, base64Image, generate, parse).suggestion == f.suggestion
    ensures Analyze(description, base64Image, generate, parse).potentialImpact == f.potentialImpact
  {
  }

  /** An empty or undefined response text is parsed as `{}`: the analysis is OTHER and
      MEDIUM with neither suggestion nor impact (given that `JSON.parse("{}")` is an
      object without properties). */
  lemma AnalyzeEmptyTextHasNoFields(description: string, base64Image: Option<string>,
                                    generate: Request -> GenerateOutcome, parse: string -> ParseResult)
    requires parse("{}") == Parsed(NoFields)
    requires generate(BuildRequest(description, base64Image)).Responded?
    requires !Truthy(generate(BuildRequest(description, base64Image)).text)
    ensures Analyze(description, base64Image, generate, parse) == AnalysisResponse(Other, Medium, None, None)
  {
  }

  /** Every failure, of the call or of the parse, gives exactly the fallback, and the
      fallback is also what the function gives for a parsed answer only when that answer
      spells out the fallback itself. */
  lemma AnalyzeFallbackIff(description: string, base64Image: Option<string>,
                           generate: Request -> GenerateOutcome, parse: string -> ParseResult)
    ensures var out := generate(BuildRequest(description, base64Image));
      (out.CallFailed? || parse(ParserInput(out.text)).ParseFailed?) ==>
        Analyze(description, base64Image, generate, parse) == Fallback
    ensures var out := generate(BuildRequest(description, base64Image));
      out.Responded? && parse(ParserInput(out.text)).Parsed? &&
      Analyze(description, base64Image, generate, parse) == Fallback ==>
        parse(ParserInput(out.text)).fields.suggestion == Some(FallbackSuggestion) &&
        parse(ParserInput(out.text)).fields.potentialImpact == Some(FallbackImpact)
  {
  }
}
