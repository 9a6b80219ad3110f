/**
 * The closed catalog of plugin-event payload variants and the "type" tag
 * each one is written with.  Every variant name is an operation followed by
 * `Request` or `Response`, and every name is a run of capitalised words; its
 * tag is serde's snake_case renaming of the name, which comes to the words in
 * lower case joined by "_".  A tag is read back by cutting it at every "_",
 * reading each piece as a word, and looking the words up.
 */
module Catalog {
  import opened Wrappers
  import opened Naming
  import W = Vocabulary

  /** One constructor per variant of the payload union, in declaration order. */
  datatype Variant =
    | BootRequest | BootResponse
    | ReloadRequest | ReloadResponse
    | TerminateRequest | TerminateResponse
    | ImportRequest | ImportResponse
    | FilterRequest | FilterResponse
    | ExportHttpRequestRequest | ExportHttpRequestResponse
    | SendHttpRequestRequest | SendHttpRequestResponse
    | GetHttpRequestActionsRequest | GetHttpRequestActionsResponse | CallHttpRequestActionRequest
    | GetTemplateFunctionsRequest | GetTemplateFunctionsResponse | CallTemplateFunctionRequest | CallTemplateFunctionResponse
    | GetHttpAuthenticationRequest | GetHttpAuthenticationResponse | CallHttpAuthenticationRequest | CallHttpAuthenticationResponse
    | CopyTextRequest
    | RenderHttpRequestRequest | RenderHttpRequestResponse
    | TemplateRenderRequest | TemplateRenderResponse
    | ShowToastRequest
    | PromptTextRequest | PromptTextResponse
    | GetHttpRequestByIdRequest | GetHttpRequestByIdResponse
    | FindHttpResponsesRequest | FindHttpResponsesResponse
    | EmptyResponse

  /** What a variant is about: its name without the final `Request` or `Response`. */
  datatype Operation =
    | Boot | Reload | Terminate | Import | Filter | ExportHttpRequest | SendHttpRequest | GetHttpRequestActions
    | CallHttpRequestAction | GetTemplateFunctions | CallTemplateFunction | GetHttpAuthentication
    | CallHttpAuthentication | CopyText | RenderHttpRequest | TemplateRender | ShowToast | PromptText
    | GetHttpRequestById | FindHttpResponses | Empty

  function OperationOf(v: Variant): Operation {
    match v
    case BootRequest => Boot
    case BootResponse => Boot
    case ReloadRequest => Reload
    case ReloadResponse => Reload
    case TerminateRequest => Terminate
    case TerminateResponse => Terminate
    case ImportRequest => Import
    case ImportResponse => Import
    case FilterRequest => Filter
    case FilterResponse => Filter
    case ExportHttpRequestRequest => ExportHttpRequest
    case ExportHttpRequestResponse => ExportHttpRequest
    case SendHttpRequestRequest => SendHttpRequest
    case SendHttpRequestResponse => SendHttpRequest
    case GetHttpRequestActionsRequest => GetHttpRequestActions
    case GetHttpRequestActionsResponse => GetHttpRequestActions
    case CallHttpRequestActionRequest => CallHttpRequestAction
    case GetTemplateFunctionsRequest => GetTemplateFunctions
    case GetTemplateFunctionsResponse => GetTemplateFunctions
    case CallTemplateFunctionRequest => CallTemplateFunction
    case CallTemplateFunctionResponse => CallTemplateFunction
    case GetHttpAuthenticationRequest => GetHttpAuthentication
    case GetHttpAuthenticationResponse => GetHttpAuthentication
    case CallHttpAuthenticationRequest => CallHttpAuthentication
    case CallHttpAuthenticationResponse => CallHttpAuthentication
    case CopyTextRequest => CopyText
    case RenderHttpRequestRequest => RenderHttpRequest
    case RenderHttpRequestResponse => RenderHttpRequest
    case TemplateRenderRequest => TemplateRender
    case TemplateRenderResponse => TemplateRender
    case ShowToastRequest => ShowToast
    case PromptTextRequest => PromptText
    case PromptTextResponse => PromptText
    case GetHttpRequestByIdRequest => GetHttpRequestById
    case GetHttpRequestByIdResponse => GetHttpRequestById
    case FindHttpResponsesRequest => FindHttpResponses
    case FindHttpResponsesResponse => FindHttpResponses
    case EmptyResponse => Empty
  }

  /** The last word of the variant's name. */
  function LastWord(v: Variant): (r: W.Word)
    ensures r == W.Request || r == W.Response
  {
    match v
    case BootRequest => W.Request
    case BootResponse => W.Response
    case ReloadRequest => W.Request
    case ReloadResponse => W.Response
    case TerminateRequest => W.Request
    case TerminateResponse => W.Response
    case ImportRequest => W.Request
    case ImportResponse => W.Response
    case FilterRequest => W.Request
    case FilterResponse => W.Response
    case ExportHttpRequestRequest => W.Request
    case ExportHttpRequestResponse => W.Response
    case SendHttpRequestRequest => W.Request
    case SendHttpRequestResponse => W.Response
    case GetHttpRequestActionsRequest => W.Request
    case GetHttpRequestActionsResponse => W.Response
    case CallHttpRequestActionRequest => W.Request
    case GetTemplateFunctionsRequest => W.Request
    case GetTemplateFunctionsResponse => W.Response
    case CallTemplateFunctionRequest => W.Request
    case CallTemplateFunctionResponse => W.Response
    case GetHttpAuthenticationRequest => W.Request
    case GetHttpAuthenticationResponse => W.Response
    case CallHttpAuthenticationRequest => W.Request
    case CallHttpAuthenticationResponse => W.Response
    case CopyTextRequest => W.Request
    case RenderHttpRequestRequest => W.Request
    case RenderHttpRequestResponse => W.Response
    case TemplateRenderRequest => W.Request
    case TemplateRenderResponse => W.Response
    case ShowToastRequest => W.Request
    case PromptTextRequest => W.Request
    case PromptTextResponse => W.Response
    case GetHttpRequestByIdRequest => W.Request
    case GetHttpRequestByIdResponse => W.Response
    case FindHttpResponsesRequest => W.Request
    case FindHttpResponsesResponse => W.Response
    case EmptyResponse => W.Response
  }

  /** The words of an operation's name, in order. */
  function OperationWords(op: Operation): seq<W.Word> {
    match op
    case Boot => [W.Boot]
    case Reload => [W.Reload]
    case Terminate => [W.Terminate]
    case Import => [W.Import]
    case Filter => [W.Filter]
    case ExportHttpRequest => [W.Export, W.Http, W.Request]
    case SendHttpRequest => [W.Send, W.Http, W.Request]
    case GetHttpRequestActions => [W.Get, W.Http, W.Request, W.Actions]
    case CallHttpRequestAction => [W.Call, W.Http, W.Request, W.Action]
    case GetTemplateFunctions => [W.Get, W.Template, W.Functions]
    case CallTemplateFunction => [W.Call, W.Template, W.Function]
    case GetHttpAuthentication => [W.Get, W.Http, W.Authentication]
    case CallHttpAuthentication => [W.Call, W.Http, W.Authentication]
    case CopyText => [W.Copy, W.Text]
    case RenderHttpRequest => [W.Render, W.Http, W.Request]
    case TemplateRender => [W.Template, W.Render]
    case ShowToast => [W.Show, W.Toast]
    case PromptText => [W.Prompt, W.Text]
    case GetHttpRequestById => [W.Get, W.Http, W.Request, W.By, W.Id]
    case FindHttpResponses => [W.Find, W.Http, W.Responses]
    case Empty => [W.Empty]
  }

  /** The words of a variant's name, in order. */
  function Words(v: Variant): (r: seq<W.Word>)
    ensures r != []
  {
    OperationWords(OperationOf(v)) + [LastWord(v)]
  }

  /** The request of an operation, if the catalog has one. */
  function RequestOf(op: Operation): (r: Option<Variant>)
    ensures r.Some? ==> OperationOf(r.value) == op && LastWord(r.value) == W.Request
  {
    match op
    case Boot => Some(BootRequest)
    case Reload => Some(ReloadRequest)
    case Terminate => Some(TerminateRequest)
    case Import => Some(ImportRequest)
    case Filter => Some(FilterRequest)
    case ExportHttpRequest => Some(ExportHttpRequestRequest)
    case SendHttpRequest => Some(SendHttpRequestRequest)
    case GetHttpRequestActions => Some(GetHttpRequestActionsRequest)
    case CallHttpRequestAction => Some(CallHttpRequestActionRequest)
    case GetTemplateFunctions => Some(GetTemplateFunctionsRequest)
    case CallTemplateFunction => Some(CallTemplateFunctionRequest)
    case GetHttpAuthentication => Some(GetHttpAuthenticationRequest)
    case CallHttpAuthentication => Some(CallHttpAuthenticationRequest)
    case CopyText => Some(CopyTextRequest)
    case RenderHttpRequest => Some(RenderHttpRequestRequest)
    case TemplateRender => Some(TemplateRenderRequest)
    case ShowToast => Some(ShowToastRequest)
    case PromptText => Some(PromptTextRequest)
    case GetHttpRequestById => Some(GetHttpRequestByIdRequest)
    case FindHttpResponses => Some(FindHttpResponsesRequest)
    case Empty => None
  }

  /** The response of an operation, if the catalog has one. */
  function ResponseOf(op: Operation): (r: Option<Variant>)
    ensures r.Some? ==> OperationOf(r.value) == op && LastWord(r.value) == W.Response
  {
    match op
    case Boot => Some(BootResponse)
    case Reload => Some(ReloadResponse)
    case Terminate => Some(TerminateResponse)
    case Import => Some(ImportResponse)
    case Filter => Some(FilterResponse)
    case ExportHttpRequest => Some(ExportHttpRequestResponse)
    case SendHttpRequest => Some(SendHttpRequestResponse)
    case GetHttpRequestActions => Some(GetHttpRequestActionsResponse)
    case CallHttpRequestAction => None
    case GetTemplateFunctions => Some(GetTemplateFunctionsResponse)
    case CallTemplateFunction => Some(CallTemplateFunctionResponse)
    case GetHttpAuthentication => Some(GetHttpAuthenticationResponse)
    case CallHttpAuthentication => Some(CallHttpAuthenticationResponse)
    case CopyText => None
    case RenderHttpRequest => Some(RenderHttpRequestResponse)
    case TemplateRender => Some(TemplateRenderResponse)
    case ShowToast => None
    case PromptText => Some(PromptTextResponse)
    case GetHttpRequestById => Some(GetHttpRequestByIdResponse)
    case FindHttpResponses => Some(FindHttpResponsesResponse)
    case Empty => Some(EmptyResponse)
  }

  /** The variant made of an operation and a last word, if the catalog has one. */
  function VariantOf(op: Operation, last: W.Word): (r: Option<Variant>)
    ensures r.Some? ==> OperationOf(r.value) == op && LastWord(r.value) == last
  {
    if last == W.Request then RequestOf(op)
    else if last == W.Response then ResponseOf(op)
    else None
  }

  /** The operation whose name is made of `ws`, if any: decided by the first word, then the whole name. */
  function OperationOfWords(ws: seq<W.Word>): (r: Option<Operation>)
    ensures r.Some? ==> OperationWords(r.value) == ws
  {
    if ws == [] then None
    else
      match ws[0]
      case Boot =>
        if ws == [W.Boot] then Some(Boot)
        else None
      case Reload =>
        if ws == [W.Reload] then Some(Reload)
        else None
      case Terminate =>
        if ws == [W.Terminate] then Some(Terminate)
        else None
      case Import =>
        if ws == [W.Import] then Some(Import)
        else None
      case Filter =>
        if ws == [W.Filter] then Some(Filter)
        else None
      case Export =>
        if ws == [W.Export, W.Http, W.Request] then Some(ExportHttpRequest)
        else None
      case Send =>
        if ws == [W.Send, W.Http, W.Request] then Some(SendHttpRequest)
        else None
      case Get =>
        if ws == [W.Get, W.Http, W.Request, W.Actions] then Some(GetHttpRequestActions)
        else if ws == [W.Get, W.Template, W.Functions] then Some(GetTemplateFunctions)
        else if ws == [W.Get, W.Http, W.Authentication] then Some(GetHttpAuthentication)
        else if ws == [W.Get, W.Http, W.Request, W.By, W.Id] then Some(GetHttpRequestById)
        else None
      case Call =>
        if ws == [W.Call, W.Http, W.Request, W.Action] then Some(CallHttpRequestAction)
        else if ws == [W.Call, W.Template, W.Function] then Some(CallTemplateFunction)
        else if ws == [W.Call, W.Http, W.Authentication] then Some(CallHttpAuthentication)
        else None
      case Copy =>
        if ws == [W.Copy, W.Text] then Some(CopyText)
        else None
      case Render =>
        if ws == [W.Render, W.Http, W.Request] then Some(RenderHttpRequest)
        else None
      case Template =>
        if ws == [W.Template, W.Render] then Some(TemplateRender)
        else None
      case Show =>
        if ws == [W.Show, W.Toast] then Some(ShowToast)
        else None
      case Prompt =>
        if ws == [W.Prompt, W.Text] then Some(PromptText)
        else None
      case Find =>
        if ws == [W.Find, W.Http, W.Responses] then Some(FindHttpResponses)
        else None
      case Empty =>
        if ws == [W.Empty] then Some(Empty)
        else None
      case _ => None
  }

  /** The variant whose name is made of `ws`, if any. */
  function VariantOfWords(ws: seq<W.Word>): (r: Option<Variant>)
    ensures r.Some? ==> Words(r.value) == ws
  {
    if ws == [] then None
    else
      assert ws == ws[..|ws| - 1] + [ws[|ws| - 1]];
      match OperationOfWords(ws[..|ws| - 1])
      case None => None
      case Some(op) => VariantOf(op, ws[|ws| - 1])
  }

  // ---- tags ----

  /** The "type" tag a variant is written with. */
  function Tag(v: Variant): string {
    Join(W.Spellings(Words(v)))
  }

  /** The variant's name as declared, e.g. `GetHttpRequestByIdRequest`. */
  function Name(v: Variant): string {
    CamelJoin(W.Spellings(Words(v)))
  }

  /** The variant a tag names, if any: what serde does with the "type" field. */
  function VariantOfTag(t: string): (r: Option<Variant>)
    ensures r.Some? ==> Tag(r.value) == t
  {
    JoinSplit(t);
    match W.WordsOf(Split(t))
    case None => None
    case Some(ws) => VariantOfWords(ws)
  }

  /** Every operation is read back from its words. */
  lemma OperationWordsRoundTrip(op: Operation)
    ensures OperationOfWords(OperationWords(op)) == Some(op)
  {
  }

  /** Every variant is found again from its operation and last word. */
  lemma VariantOfRoundTrip(v: Variant)
    ensures VariantOf(OperationOf(v), LastWord(v)) == Some(v)
  {
  }

  /** Each variant's words lead back to that variant. */
  lemma WordsRoundTrip(v: Variant)
    ensures VariantOfWords(Words(v)) == Some(v)
  {
    var ws := Words(v);
    assert ws[..|ws| - 1] == OperationWords(OperationOf(v));
    OperationWordsRoundTrip(OperationOf(v));
    VariantOfRoundTrip(v);
  }

  /** Every tag is read back as its own variant. */
  lemma TagRoundTrip(v: Variant)
    ensures VariantOfTag(Tag(v)) == Some(v)
  {
    W.SpellingsAreLowerCase(Words(v));
    SplitJoin(W.Spellings(Words(v)));
    W.WordsOfSpellings(Words(v));
    WordsRoundTrip(v);
  }

  /** Looking a tag up finds exactly the variant written with that tag. */
  lemma VariantOfTagExact(t: string, v: Variant)
    ensures VariantOfTag(t) == Some(v) <==> Tag(v) == t
  {
    if Tag(v) == t {
      TagRoundTrip(v);
    }
  }

  /** No two variants share a tag. */
  lemma TagInjective(v: Variant, w: Variant)
    requires Tag(v) == Tag(w)
    ensures v == w
  {
    TagRoundTrip(v);
    TagRoundTrip(w);
  }

  /** The catalog is closed: a string that is no variant's tag names nothing. */
  lemma UnknownTag(t: string)
    ensures VariantOfTag(t) == None <==> forall v :: Tag(v) != t
  {
    forall v ensures Tag(v) != t || VariantOfTag(t) == Some(v) {
      VariantOfTagExact(t, v);
    }
  }

  /** Every variant is written with the snake_case form of its name. */
  lemma TagIsSnakeCase(v: Variant)
    ensures Tag(v) == SnakeCase(Name(v))
  {
    W.SpellingsAreLowerCase(Words(v));
    SnakeCaseOfCamel(W.Spellings(Words(v)));
  }

  // ---- requests and the responses that answer them ----

  predicate IsRequest(v: Variant) {
    LastWord(v) == W.Request
  }

  /** Some variant of the catalog answers request `v`: the response of the same operation. */
  predicate Answered(v: Variant)
    requires IsRequest(v)
  {
    exists w :: OperationOf(w) == OperationOf(v) && LastWord(w) == W.Response
  }

  /** Copying text, showing a toast and calling a request action are the only requests nothing answers. */
  lemma AnsweredExactly(v: Variant)
    requires IsRequest(v)
    ensures Answered(v) <==> !(v == CopyTextRequest || v == ShowToastRequest || v == CallHttpRequestActionRequest)
  {
    var r := ResponseOf(OperationOf(v));
    if r.Some? {
      assert OperationOf(r.value) == OperationOf(v) && LastWord(r.value) == W.Response;
    } else {
      forall w | OperationOf(w) == OperationOf(v) ensures LastWord(w) != W.Response {
        VariantOfRoundTrip(w);
      }
    }
  }
}
