/** The remote service gateway (services/api.ts). `ApiService` has no fields, so each
    of its operations is a function. What the network, the token store and `JSON.parse`
    answer is an input: a `Result` whose `Err` is the JavaScript error thrown. */
module Api {
  import opened Wrappers
  import opened Types

  /** A thrown JavaScript error: its constructor name and its message. */
  datatype JsError = JsError(name: string, message: string)

  const ApiBaseUrl: string := "https://your-api-endpoint.com"
  const ContentType: string := "Content-Type"
  const Authorization: string := "Authorization"
  const JsonMediaType: string := "application/json"

  // ---------------------------------------------------------------------------
  // getAuthToken

  /** The stored token, or none when the storage read throws. */
  function GetAuthToken(stored: Result<Option<string>, JsError>): (token: Option<string>)
    ensures stored.Err? ==> token == None
    ensures token.Some? <==> stored.Ok? && stored.value.Some?
    ensures token.Some? ==> token.value == stored.value.value
  {
    match stored
    case Ok(t) => t
    case Err(_) => None
  }

  /** JavaScript truthiness of a `string | null`: present and not empty. */
  predicate Truthy(s: Option<string>) {
    s.Some? && s.value != ""
  }

  // ---------------------------------------------------------------------------
  // request

  /** The fields of a fetch `RequestInit` that the app sets. */
  datatype RequestInit = RequestInit(httpMethod: Option<string>, body: Option<string>, headers: map<string, string>)

  /** The headers object: the JSON content type, then the bearer token when the token
      is truthy, then the caller's headers, each later entry overriding an earlier one. */
  function RequestHeaders(token: Option<string>, callerHeaders: map<string, string>): (h: map<string, string>)
    ensures h.Keys == {ContentType} + (if Truthy(token) then {Authorization} else {}) + callerHeaders.Keys
    ensures forall k :: k in callerHeaders ==> h[k] == callerHeaders[k]
    ensures ContentType !in callerHeaders ==> h[ContentType] == JsonMediaType
    ensures Authorization !in callerHeaders ==>
      (Authorization in h <==> Truthy(token)) &&
      (Truthy(token) ==> h[Authorization] == "Bearer " + token.value)
  {
    map[ContentType := JsonMediaType]
      + (if Truthy(token) then map[Authorization := "Bearer " + token.value] else map[])
      + callerHeaders
  }

  /** `{...options, headers: {...}}`: everything the caller passed, with the headers replaced. */
  function RequestConfig(options: RequestInit, token: Option<string>): (config: RequestInit)
    ensures config.httpMethod == options.httpMethod && config.body == options.body
    ensures config.headers == RequestHeaders(token, options.headers)
  {
    options.(headers := RequestHeaders(token, options.headers))
  }

  /** `${API_BASE_URL}${endpoint}`. */
  function RequestUrl(endpoint: string): (url: string)
    ensures |url| == |ApiBaseUrl| + |endpoint|
    ensures url[..|ApiBaseUrl|] == ApiBaseUrl && url[|ApiBaseUrl|..] == endpoint
  {
    ApiBaseUrl + endpoint
  }

  /** A fetch response: its status and what `response.json()` gives. */
  datatype HttpResponse<T> = HttpResponse(status: nat, json: Result<T, JsError>)

  /** `response.ok`: a status in the range 200-299. */
  predicate IsOk(status: nat) {
    200 <= status <= 299
  }

  datatype FetchCall = FetchCall(url: string, config: RequestInit)

  /** One call of `request`: the fetch it issues and what it resolves to. A fetch that
      rejects propagates its error; a status outside 200-299 becomes an error carrying
      the status; otherwise the parsed body is returned. */
  function Request<T>(endpoint: string, options: RequestInit, stored: Result<Option<string>, JsError>,
                      response: Result<HttpResponse<T>, JsError>): (r: (FetchCall, Result<T, JsError>))
    ensures r.0 == FetchCall(RequestUrl(endpoint), RequestConfig(options, GetAuthToken(stored)))
    ensures response.Err? ==> r.1 == Err(response.error)
    ensures response.Ok? && !IsOk(response.value.status) ==>
      r.1 == Err(JsError("Error", HttpErrorMessage(response.value.status)))
    ensures response.Ok? && IsOk(response.value.status) ==> r.1 == response.value.json
    ensures r.1.Ok? <==> response.Ok? && IsOk(response.value.status) && response.value.json.Ok?
  {
    var call := FetchCall(RequestUrl(endpoint), RequestConfig(options, GetAuthToken(stored)));
    match response
    case Err(e) => (call, Err(e))
    case Ok(resp) =>
      if !IsOk(resp.status) then (call, Err(JsError("Error", HttpErrorMessage(resp.status))))
      else (call, resp.json)
  }

  const HttpErrorPrefix: string := "HTTP error! status: "

  /** `HTTP error! status: ${response.status}`. */
  function HttpErrorMessage(status: nat): string {
    HttpErrorPrefix + DecimalString(status)
  }

  /** Reads the status back out of an HTTP error message, if it is one. */
  function HttpErrorStatus(message: string): Option<nat> {
    if |message| > |HttpErrorPrefix| && message[..|HttpErrorPrefix|] == HttpErrorPrefix
       && AllDigits(message[|HttpErrorPrefix|..])
    then Some(DecimalValue(message[|HttpErrorPrefix|..]))
    else None
  }

  /** The error raised for a non-ok response carries its status. */
  lemma HttpErrorCarriesStatus(status: nat)
    ensures HttpErrorStatus(HttpErrorMessage(status)) == Some(status)
  {
    var m := HttpErrorMessage(status);
    DecimalRoundTrip(status);
    assert m[..|HttpErrorPrefix|] == HttpErrorPrefix;
    assert m[|HttpErrorPrefix|..] == DecimalString(status);
  }

  function DigitChar(d: nat): (c: char)
    requires d < 10
    ensures '0' <= c <= '9' && (c as int) - ('0' as int) == d
  {
    (('0' as int) + d) as char
  }

  predicate AllDigits(s: string) {
    forall i :: 0 <= i < |s| ==> '0' <= s[i] <= '9'
  }

  /** The decimal digits of a number, as JavaScript prints an integer. */
  function DecimalString(n: nat): (s: string)
    ensures |s| > 0
  {
    if n < 10 then [DigitChar(n)] else DecimalString(n / 10) + [DigitChar(n % 10)]
  }

  function DecimalValue(s: string): nat
    requires AllDigits(s)
  {
    if s == [] then 0
    else DecimalValue(s[..|s| - 1]) * 10 + ((s[|s| - 1] as int) - ('0' as int))
  }

  lemma {:induction false} DecimalRoundTrip(n: nat)
    ensures AllDigits(DecimalString(n))
    ensures DecimalValue(DecimalString(n)) == n
  {
    if n < 10 {
      var s := DecimalString(n);
      assert s[..|s| - 1] == [];
    } else {
      DecimalRoundTrip(n / 10);
      var s := DecimalString(n);
      assert s[..|s| - 1] == DecimalString(n / 10);
    }
  }

  // ---------------------------------------------------------------------------
  // Backend endpoints

  datatype BackendCall =
    | GetUserProfile
    | UpdateUserProfile(updates: string)
    | SaveFoodEntry(entry: string)
    | GetDailyLog(date: string)
    | SaveBodyScan(scan: string)
    | GetBodyScans

  /** The endpoint and options each backend operation passes to `request`; bodies are
      the `JSON.stringify` text of the argument. */
  function BackendRoute(call: BackendCall): (r: (string, RequestInit))
    ensures r.1.headers == map[]
    ensures r.1.body.Some? <==> r.1.httpMethod.Some?
    ensures r.1.body.Some? <==> (call.UpdateUserProfile? || call.SaveFoodEntry? || call.SaveBodyScan?)
    ensures call.GetUserProfile? ==> r == ("/user/profile", RequestInit(None, None, map[]))
    ensures call.UpdateUserProfile? ==> r == ("/user/profile", RequestInit(Some("PUT"), Some(call.updates), map[]))
    ensures call.SaveFoodEntry? ==> r == ("/food/entries", RequestInit(Some("POST"), Some(call.entry), map[]))
    ensures call.GetDailyLog? ==> r == ("/food/daily-log?date=" + call.date, RequestInit(None, None, map[]))
    ensures call.SaveBodyScan? ==> r == ("/body-scans", RequestInit(Some("POST"), Some(call.scan), map[]))
    ensures call.GetBodyScans? ==> r == ("/body-scans", RequestInit(None, None, map[]))
  {
    match call
    case GetUserProfile => ("/user/profile", RequestInit(None, None, map[]))
    case UpdateUserProfile(u) => ("/user/profile", RequestInit(Some("PUT"), Some(u), map[]))
    case SaveFoodEntry(e) => ("/food/entries", RequestInit(Some("POST"), Some(e), map[]))
    case GetDailyLog(d) => ("/food/daily-log?date=" + d, RequestInit(None, None, map[]))
    case SaveBodyScan(s) => ("/body-scans", RequestInit(Some("POST"), Some(s), map[]))
    case GetBodyScans => ("/body-scans", RequestInit(None, None, map[]))
  }

  /** Backend calls pass no headers of their own, so each sends exactly the JSON content
      type and, when the stored token is truthy, its bearer header. */
  lemma BackendCallHeaders(call: BackendCall, stored: Result<Option<string>, JsError>, response: Result<HttpResponse<string>, JsError>)
    ensures var h := Request(BackendRoute(call).0, BackendRoute(call).1, stored, response).0.config.headers;
      && h[ContentType] == JsonMediaType
      && (Authorization in h <==> Truthy(GetAuthToken(stored)))
      && h.Keys <= {ContentType, Authorization}
  {
  }

  // ---------------------------------------------------------------------------
  // getChatResponse

  const ChatModel: string := "gpt-4"
  const ChatMaxTokens: nat := 500
  const CoachSystemPrompt: string :=
    "You are a professional fitness and nutrition coach. Provide helpful, accurate, and motivating advice about fitness, nutrition, and healthy lifestyle habits. Be encouraging and supportive while giving practical, actionable advice."

  /** One element of the `messages` array sent to the chat endpoint, seen through its
      `role` field (absent on an object that has none) and its `content` field. */
  datatype WireMessage = WireMessage(role: Option<string>, content: string)

  /** The roles the chat endpoint accepts. */
  predicate KnownRole(role: Option<string>) {
    role == Some("system") || role == Some("user") || role == Some("assistant")
  }

  /** Every message of a chat request names a role the endpoint accepts. */
  predicate WellFormedChat(messages: seq<WireMessage>) {
    forall i :: 0 <= i < |messages| ==> KnownRole(messages[i].role)
  }

  /** The message list: the system prompt, then the context as given, then the user turn. */
  function ChatMessages(message: string, context: seq<WireMessage>): (msgs: seq<WireMessage>)
    ensures |msgs| == |context| + 2
    ensures msgs[0] == WireMessage(Some("system"), CoachSystemPrompt)
    ensures forall i :: 0 <= i < |context| ==> msgs[i + 1] == context[i]
    ensures msgs[|msgs| - 1] == WireMessage(Some("user"), message)
  {
    [WireMessage(Some("system"), CoachSystemPrompt)] + context + [WireMessage(Some("user"), message)]
  }

  /** The chat request is well formed exactly when every context entry names a known role. */
  lemma ChatMessagesWellFormed(message: string, context: seq<WireMessage>)
    ensures WellFormedChat(ChatMessages(message, context)) <==> WellFormedChat(context)
  {
  }

  datatype ChatRequest = ChatRequest(model: string, messages: seq<WireMessage>, maxTokens: nat)

  /** A chat-completion reply: its status and the `message.content` of each choice. */
  datatype CompletionReply = CompletionReply(status: nat, choices: seq<string>)

  const ChatFailure: string := "Failed to get AI response"

  /** The content of the first choice. A non-ok status raises the fixed failure, and a
      reply without choices fails on reading `choices[0]`. */
  function CompletionContent(failMessage: string, reply: Result<CompletionReply, JsError>): (r: Result<string, JsError>)
    ensures reply.Err? ==> r == Err(reply.error)
    ensures reply.Ok? && !IsOk(reply.value.status) ==> r == Err(JsError("Error", failMessage))
    ensures r.Ok? <==> reply.Ok? && IsOk(reply.value.status) && |reply.value.choices| > 0
    ensures r.Ok? ==> r.value == reply.value.choices[0]
  {
    match reply
    case Err(e) => Err(e)
    case Ok(rep) =>
      if !IsOk(rep.status) then Err(JsError("Error", failMessage))
      else if |rep.choices| == 0 then Err(JsError("TypeError", "Cannot read properties of undefined (reading 'message')"))
      else Ok(rep.choices[0])
  }

  /** One call of `getChatResponse`: the request it sends and the reply text it resolves to. */
  function GetChatResponse(message: string, context: seq<WireMessage>, reply: Result<CompletionReply, JsError>)
    : (r: (ChatRequest, Result<string, JsError>))
    ensures r.0.model == "gpt-4" && r.0.maxTokens == 500
    ensures |r.0.messages| == |context| + 2
    ensures r.0.messages[0] == WireMessage(Some("system"), CoachSystemPrompt)
    ensures forall i :: 0 <= i < |context| ==> r.0.messages[i + 1] == context[i]
    ensures r.0.messages[|context| + 1] == WireMessage(Some("user"), message)
    ensures reply.Err? ==> r.1 == Err(reply.error)
    ensures reply.Ok? && !IsOk(reply.value.status) ==> r.1 == Err(JsError("Error", "Failed to get AI response"))
    ensures r.1.Ok? <==> reply.Ok? && IsOk(reply.value.status) && |reply.value.choices| > 0
    ensures r.1.Ok? ==> r.1.value == reply.value.choices[0]
  {
    (ChatRequest(ChatModel, ChatMessages(message, context), ChatMaxTokens), CompletionContent(ChatFailure, reply))
  }

  // ---------------------------------------------------------------------------
  // analyzeBodyImage / analyzeFoodImage

  /** What the body-analysis prompt asks the model to return. */
  datatype Macros = Macros(protein: real, carbs: real, fat: real)
  datatype WorkoutSuggestion = WorkoutSuggestion(kind: string, frequency: real, duration: real)
  datatype BodyAnalysis = BodyAnalysis(bodyFatPercentage: real, dailyCalories: real, macros: Macros,
                                       workoutPlan: WorkoutSuggestion, focusAreas: seq<string>,
                                       recommendations: seq<string>)

  /** What the food-analysis prompt asks the model to return. */
  datatype FoodAnalysis = FoodAnalysis(name: string, calories: real, protein: real, carbs: real, fat: real, confidence: real)

  const VisionModel: string := "gpt-4-vision-preview"
  const BodyMaxTokens: nat := 1000
  const FoodMaxTokens: nat := 300
  const BodyFailure: string := "Failed to analyze image"
  const FoodFailure: string := "Failed to analyze food image"

  /** A vision request: the model, the image it references and the token budget. */
  datatype VisionRequest = VisionRequest(model: string, imageUrl: string, maxTokens: nat)

  /** The first choice's content passed through `parse` (standing for `JSON.parse`). */
  function VisionResult<T>(failMessage: string, reply: Result<CompletionReply, JsError>,
                           parse: string -> Result<T, JsError>): (r: Result<T, JsError>)
    ensures CompletionContent(failMessage, reply).Err? ==> r == Err(CompletionContent(failMessage, reply).error)
    ensures CompletionContent(failMessage, reply).Ok? ==> r == parse(reply.value.choices[0])
  {
    match CompletionContent(failMessage, reply)
    case Err(e) => Err(e)
    case Ok(text) => parse(text)
  }

  function AnalyzeBodyImage(imageUri: string, reply: Result<CompletionReply, JsError>,
                            parse: string -> Result<BodyAnalysis, JsError>): (r: (VisionRequest, Result<BodyAnalysis, JsError>))
    ensures r.0 == VisionRequest(VisionModel, imageUri, BodyMaxTokens)
    ensures reply.Err? ==> r.1 == Err(reply.error)
    ensures reply.Ok? && !IsOk(reply.value.status) ==> r.1 == Err(JsError("Error", BodyFailure))
    ensures reply.Ok? && IsOk(reply.value.status) && |reply.value.choices| > 0 ==> r.1 == parse(reply.value.choices[0])
    ensures r.1.Ok? ==> reply.Ok? && IsOk(reply.value.status) && |reply.value.choices| > 0
                        && parse(reply.value.choices[0]).Ok?
  {
    (VisionRequest(VisionModel, imageUri, BodyMaxTokens), VisionResult(BodyFailure, reply, parse))
  }

  function AnalyzeFoodImage(imageUri: string, reply: Result<CompletionReply, JsError>,
                            parse: string -> Result<FoodAnalysis, JsError>): (r: (VisionRequest, Result<FoodAnalysis, JsError>))
    ensures r.0 == VisionRequest(VisionModel, imageUri, FoodMaxTokens)
    ensures reply.Err? ==> r.1 == Err(reply.error)
    ensures reply.Ok? && !IsOk(reply.value.status) ==> r.1 == Err(JsError("Error", FoodFailure))
    ensures reply.Ok? && IsOk(reply.value.status) && |reply.value.choices| > 0 ==> r.1 == parse(reply.value.choices[0])
    ensures r.1.Ok? ==> reply.Ok? && IsOk(reply.value.status) && |reply.value.choices| > 0
                        && parse(reply.value.choices[0]).Ok?
  {
    (VisionRequest(VisionModel, imageUri, FoodMaxTokens), VisionResult(FoodFailure, reply, parse))
  }

  // ---------------------------------------------------------------------------
  // lookupBarcode

  /** The parts of an Open Food Facts product reply that are read; an absent field is None. */
  datatype Nutriments = Nutriments(energyKcal100g: Option<real>, proteins100g: Option<real>,
                                   carbohydrates100g: Option<real>, fat100g: Option<real>)
  datatype Product = Product(productName: Option<string>, nutriments: Option<Nutriments>)
  datatype BarcodeReply = BarcodeReply(status: int, product: Option<Product>)

  /** The normalised nutrition record a successful lookup yields. */
  datatype FoodFacts = FoodFacts(name: string, calories: real, protein: real, carbs: real, fat: real, verified: bool)

  const UnknownProduct: string := "Unknown Product"
  const ProductNotFound: string := "Product not found"

  const BarcodeBase: string := "https://world.openfoodfacts.org/api/v0/product/"

  /** The product URL `lookupBarcode` fetches; the barcode reads back from between the
      fixed prefix and the `.json` suffix. */
  function BarcodeUrl(barcode: string): (url: string)
    ensures |url| == |BarcodeBase| + |barcode| + 5
    ensures url[..|BarcodeBase|] == BarcodeBase
    ensures url[|BarcodeBase|..|url| - 5] == barcode
    ensures url[|url| - 5..] == ".json"
  {
    BarcodeBase + barcode + ".json"
  }

  /** `value || 0` on a number that may be absent. */
  function OrZero(n: Option<real>): (r: real)
    ensures r == n.GetOr(0.0)
  {
    if n.Some? && n.value != 0.0 then n.value else 0.0
  }

  /** `product_name || 'Unknown Product'`. */
  function NameOrUnknown(name: Option<string>): (r: string)
    ensures Truthy(name) ==> r == name.value
    ensures !Truthy(name) ==> r == UnknownProduct
  {
    if Truthy(name) then name.value else UnknownProduct
  }

  /** `lookupBarcode`: a reply with status 1 becomes a record, every other status the
      "Product not found" error. A status-1 reply without a product or without its
      nutriments object fails on the property read, as JavaScript does. */
  function LookupBarcode(barcode: string, reply: Result<BarcodeReply, JsError>): (r: (string, Result<FoodFacts, JsError>))
    ensures r.0 == BarcodeUrl(barcode)
    ensures reply.Err? ==> r.1 == Err(reply.error)
    ensures reply.Ok? && reply.value.status != 1 ==> r.1 == Err(JsError("Error", ProductNotFound))
    ensures r.1.Ok? <==> reply.Ok? && reply.value.status == 1 && reply.value.product.Some?
                         && reply.value.product.value.nutriments.Some?
    ensures r.1.Ok? ==>
      var p := reply.value.product.value;
      var n := p.nutriments.value;
      && r.1.value.verified
      && r.1.value.calories == n.energyKcal100g.GetOr(0.0)
      && r.1.value.protein == n.proteins100g.GetOr(0.0)
      && r.1.value.carbs == n.carbohydrates100g.GetOr(0.0)
      && r.1.value.fat == n.fat100g.GetOr(0.0)
      && (if Truthy(p.productName) then r.1.value.name == p.productName.value else r.1.value.name == UnknownProduct)
  {
    (BarcodeUrl(barcode),
     match reply
     case Err(e) => Err(e)
     case Ok(data) =>
       if data.status != 1 then Err(JsError("Error", ProductNotFound))
       else if data.product.None? then Err(JsError("TypeError", "Cannot read properties of undefined (reading 'product_name')"))
       else if data.product.value.nutriments.None? then Err(JsError("TypeError", "Cannot read properties of undefined (reading 'energy_kcal_100g')"))
       else
         var p := data.product.value;
         var n := p.nutriments.value;
         Ok(FoodFacts(NameOrUnknown(p.productName), OrZero(n.energyKcal100g), OrZero(n.proteins100g),
                      OrZero(n.carbohydrates100g), OrZero(n.fat100g), true)))
  }

}
