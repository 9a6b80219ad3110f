/**
 * The plugin-event payload union.  serde writes it internally tagged: the
 * body's fields and, beside them, "type" holding the variant's tag.  A
 * unit variant is the tag alone.  Reading a payload looks the tag up in the
 * catalog and reads the body from the remaining keys; keys a body does not
 * know are ignored.
 */
module Payloads {
  import opened Wrappers
  import opened SerdeJson
  import C = Catalog
  import E = PluginEnums
  import B = PayloadBodies

  datatype InternalEventPayload<HttpRequest, HttpResponse, Workspace, Environment, Folder, GrpcRequest> =
    | BootRequest(bootRequest: B.BootRequest)
    | BootResponse(bootResponse: B.BootResponse)
    | ReloadRequest(reloadRequest: B.EmptyPayload)
    | ReloadResponse(reloadResponse: B.EmptyPayload)
    | TerminateRequest
    | TerminateResponse
    | ImportRequest(importRequest: B.Content)
    | ImportResponse(importResponse: B.ImportResponse<Workspace, Environment, Folder, HttpRequest, GrpcRequest>)
    | FilterRequest(filterRequest: B.FilterRequest)
    | FilterResponse(filterResponse: B.Content)
    | ExportHttpRequestRequest(exportHttpRequestRequest: B.HttpRequestBody<HttpRequest>)
    | ExportHttpRequestResponse(exportHttpRequestResponse: B.Content)
    | SendHttpRequestRequest(sendHttpRequestRequest: B.HttpRequestBody<HttpRequest>)
    | SendHttpRequestResponse(sendHttpRequestResponse: B.SendHttpRequestResponse<HttpResponse>)
    | GetHttpRequestActionsRequest(getHttpRequestActionsRequest: B.EmptyPayload)
    | GetHttpRequestActionsResponse(getHttpRequestActionsResponse: B.GetHttpRequestActionsResponse)
    | CallHttpRequestActionRequest(callHttpRequestActionRequest: B.CallHttpRequestActionRequest<HttpRequest>)
    | GetTemplateFunctionsRequest
    | GetTemplateFunctionsResponse(getTemplateFunctionsResponse: B.GetTemplateFunctionsResponse)
    | CallTemplateFunctionRequest(callTemplateFunctionRequest: B.CallTemplateFunctionRequest)
    | CallTemplateFunctionResponse(callTemplateFunctionResponse: B.OptionalValue)
    | GetHttpAuthenticationRequest(getHttpAuthenticationRequest: B.EmptyPayload)
    | GetHttpAuthenticationResponse(getHttpAuthenticationResponse: B.GetHttpAuthenticationResponse)
    | CallHttpAuthenticationRequest(callHttpAuthenticationRequest: B.CallHttpAuthenticationRequest)
    | CallHttpAuthenticationResponse(callHttpAuthenticationResponse: B.CallHttpAuthenticationResponse)
    | CopyTextRequest(copyTextRequest: B.CopyTextRequest)
    | RenderHttpRequestRequest(renderHttpRequestRequest: B.RenderHttpRequestRequest<HttpRequest>)
    | RenderHttpRequestResponse(renderHttpRequestResponse: B.HttpRequestBody<HttpRequest>)
    | TemplateRenderRequest(templateRenderRequest: B.TemplateRenderRequest)
    | TemplateRenderResponse(templateRenderResponse: B.TemplateRenderResponse)
    | ShowToastRequest(showToastRequest: B.ShowToastRequest)
    | PromptTextRequest(promptTextRequest: B.PromptTextRequest)
    | PromptTextResponse(promptTextResponse: B.OptionalValue)
    | GetHttpRequestByIdRequest(getHttpRequestByIdRequest: B.GetHttpRequestByIdRequest)
    | GetHttpRequestByIdResponse(getHttpRequestByIdResponse: B.GetHttpRequestByIdResponse<HttpRequest>)
    | FindHttpResponsesRequest(findHttpResponsesRequest: B.FindHttpResponsesRequest)
    | FindHttpResponsesResponse(findHttpResponsesResponse: B.FindHttpResponsesResponse<HttpResponse>)
    | EmptyResponse(emptyResponse: B.EmptyPayload)

  /** The catalog entry of a payload. */
  function VariantOf<HttpRequest, HttpResponse, Workspace, Environment, Folder, GrpcRequest>(p: InternalEventPayload<HttpRequest, HttpResponse, Workspace, Environment, Folder, GrpcRequest>): C.Variant {
    match p
    case BootRequest(_) => C.BootRequest
    case BootResponse(_) => C.BootResponse
    case ReloadRequest(_) => C.ReloadRequest
    case ReloadResponse(_) => C.ReloadResponse
    case TerminateRequest => C.TerminateRequest
    case TerminateResponse => C.TerminateResponse
    case ImportRequest(_) => C.ImportRequest
    case ImportResponse(_) => C.ImportResponse
    case FilterRequest(_) => C.FilterRequest
    case FilterResponse(_) => C.FilterResponse
    case ExportHttpRequestRequest(_) => C.ExportHttpRequestRequest
    case ExportHttpRequestResponse(_) => C.ExportHttpRequestResponse
    case SendHttpRequestRequest(_) => C.SendHttpRequestRequest
    case SendHttpRequestResponse(_) => C.SendHttpRequestResponse
    case GetHttpRequestActionsRequest(_) => C.GetHttpRequestActionsRequest
    case GetHttpRequestActionsResponse(_) => C.GetHttpRequestActionsResponse
    case CallHttpRequestActionRequest(_) => C.CallHttpRequestActionRequest
    case GetTemplateFunctionsRequest => C.GetTemplateFunctionsRequest
    case GetTemplateFunctionsResponse(_) => C.GetTemplateFunctionsResponse
    case CallTemplateFunctionRequest(_) => C.CallTemplateFunctionRequest
    case CallTemplateFunctionResponse(_) => C.CallTemplateFunctionResponse
    case GetHttpAuthenticationRequest(_) => C.GetHttpAuthenticationRequest
    case GetHttpAuthenticationResponse(_) => C.GetHttpAuthenticationResponse
    case CallHttpAuthenticationRequest(_) => C.CallHttpAuthenticationRequest
    case CallHttpAuthenticationResponse(_) => C.CallHttpAuthenticationResponse
    case CopyTextRequest(_) => C.CopyTextRequest
    case RenderHttpRequestRequest(_) => C.RenderHttpRequestRequest
    case RenderHttpRequestResponse(_) => C.RenderHttpRequestResponse
    case TemplateRenderRequest(_) => C.TemplateRenderRequest
    case TemplateRenderResponse(_) => C.TemplateRenderResponse
    case ShowToastRequest(_) => C.ShowToastRequest
    case PromptTextRequest(_) => C.PromptTextRequest
    case PromptTextResponse(_) => C.PromptTextResponse
    case GetHttpRequestByIdRequest(_) => C.GetHttpRequestByIdRequest
    case GetHttpRequestByIdResponse(_) => C.GetHttpRequestByIdResponse
    case FindHttpResponsesRequest(_) => C.FindHttpResponsesRequest
    case FindHttpResponsesResponse(_) => C.FindHttpResponsesResponse
    case EmptyResponse(_) => C.EmptyResponse
  }

  /** The variants for starting, reloading and stopping a plugin, and the empty acknowledgement. */
  predicate LifecycleVariant(v: C.Variant) {
    v.BootRequest?
    || v.BootResponse?
    || v.ReloadRequest?
    || v.ReloadResponse?
    || v.TerminateRequest?
    || v.TerminateResponse?
    || v.EmptyResponse?
  }

  /** The variants for importing, filtering and exporting content. */
  predicate ContentVariant(v: C.Variant) {
    v.ImportRequest?
    || v.ImportResponse?
    || v.FilterRequest?
    || v.FilterResponse?
    || v.ExportHttpRequestRequest?
    || v.ExportHttpRequestResponse?
  }

  /** The variants for sending and rendering HTTP requests. */
  predicate HttpVariant(v: C.Variant) {
    v.SendHttpRequestRequest?
    || v.SendHttpRequestResponse?
    || v.RenderHttpRequestRequest?
    || v.RenderHttpRequestResponse?
  }

  /** The variants for looking up stored HTTP requests and responses. */
  predicate LookupVariant(v: C.Variant) {
    v.GetHttpRequestByIdRequest?
    || v.GetHttpRequestByIdResponse?
    || v.FindHttpResponsesRequest?
    || v.FindHttpResponsesResponse?
  }

  /** The variants for template functions and template rendering. */
  predicate TemplateVariant(v: C.Variant) {
    v.GetTemplateFunctionsRequest?
    || v.GetTemplateFunctionsResponse?
    || v.CallTemplateFunctionRequest?
    || v.CallTemplateFunctionResponse?
    || v.TemplateRenderRequest?
    || v.TemplateRenderResponse?
  }

  /** The variants for HTTP request actions. */
  predicate ActionVariant(v: C.Variant) {
    v.GetHttpRequestActionsRequest?
    || v.GetHttpRequestActionsResponse?
    || v.CallHttpRequestActionRequest?
  }

  /** The variants for HTTP authentication. */
  predicate AuthenticationVariant(v: C.Variant) {
    v.GetHttpAuthenticationRequest?
    || v.GetHttpAuthenticationResponse?
    || v.CallHttpAuthenticationRequest?
    || v.CallHttpAuthenticationResponse?
  }

  /** The variants for the user-interface requests: copying text, toasts and prompts. */
  predicate UiVariant(v: C.Variant) {
    v.CopyTextRequest?
    || v.ShowToastRequest?
    || v.PromptTextRequest?
    || v.PromptTextResponse?
  }

  /** The payloads for starting, reloading and stopping a plugin, and the empty acknowledgement. */
  predicate LifecyclePayload<HttpRequest, HttpResponse, Workspace, Environment, Folder, GrpcRequest>(p: InternalEventPayload<HttpRequest, HttpResponse, Workspace, Environment, Folder, GrpcRequest>) {
    p.BootRequest?
    || p.BootResponse?
    || p.ReloadRequest?
    || p.ReloadResponse?
    || p.TerminateRequest?
    || p.TerminateResponse?
    || p.EmptyResponse?
  }

  /** The payloads for importing, filtering and exporting content. */
  predicate ContentPayload<HttpRequest, HttpResponse, Workspace, Environment, Folder, GrpcRequest>(p: InternalEventPayload<HttpRequest, HttpResponse, Workspace, Environment, Folder, GrpcRequest>) {
    p.ImportRequest?
    || p.ImportResponse?
    || p.FilterRequest?
    || p.FilterResponse?
    || p.ExportHttpRequestRequest?
    || p.ExportHttpRequestResponse?
  }

  /** The payloads for sending and rendering HTTP requests. */
  predicate HttpPayload<HttpRequest, HttpResponse, Workspace, Environment, Folder, GrpcRequest>(p: InternalEventPayload<HttpRequest, HttpResponse, Workspace, Environment, Folder, GrpcRequest>) {
    p.SendHttpRequestRequest?
    || p.SendHttpRequestResponse?
    || p.RenderHttpRequestRequest?
    || p.RenderHttpRequestResponse?
  }

  /** The payloads for looking up stored HTTP requests and responses. */
  predicate LookupPayload<HttpRequest, HttpResponse, Workspace, Environment, Folder, GrpcRequest>(p: InternalEventPayload<HttpRequest, HttpResponse, Workspace, Environment, Folder, GrpcRequest>) {
    p.GetHttpRequestByIdRequest?
    || p.GetHttpRequestByIdResponse?
    || p.FindHttpResponsesRequest?
    || p.FindHttpResponsesResponse?
  }

  /** The payloads for template functions and template rendering. */
  predicate TemplatePayload<HttpRequest, HttpResponse, Workspace, Environment, Folder, GrpcRequest>(p: InternalEventPayload<HttpRequest, HttpResponse, Workspace, Environment, Folder, GrpcRequest>) {
    p.GetTemplateFunctionsRequest?
    || p.GetTemplateFunctionsResponse?
    || p.CallTemplateFunctionRequest?
    || p.CallTemplateFunctionResponse?
    || p.TemplateRenderRequest?
    || p.TemplateRenderResponse?
  }

  /** The payloads for HTTP request actions. */
  predicate ActionPayload<HttpRequest, HttpResponse, Workspace, Environment, Folder, GrpcRequest>(p: InternalEventPayload<HttpRequest, HttpResponse, Workspace, Environment, Folder, GrpcRequest>) {
    p.GetHttpRequestActionsRequest?
    || p.GetHttpRequestActionsResponse?
    || p.CallHttpRequestActionRequest?
  }

  /** The payloads for HTTP authentication. */
  predicate AuthenticationPayload<HttpRequest, HttpResponse, Workspace, Environment, Folder, GrpcRequest>(p: InternalEventPayload<HttpRequest, HttpResponse, Workspace, Environment, Folder, GrpcRequest>) {
    p.GetHttpAuthenticationRequest?
    || p.GetHttpAuthenticationResponse?
    || p.CallHttpAuthenticationRequest?
    || p.CallHttpAuthenticationResponse?
  }

  /** The payloads for the user-interface requests: copying text, toasts and prompts. */
  predicate UiPayload<HttpRequest, HttpResponse, Workspace, Environment, Folder, GrpcRequest>(p: InternalEventPayload<HttpRequest, HttpResponse, Workspace, Environment, Folder, GrpcRequest>) {
    p.CopyTextRequest?
    || p.ShowToastRequest?
    || p.PromptTextRequest?
    || p.PromptTextResponse?
  }

  /** The fields of a body for starting, reloading and stopping a plugin, and the empty acknowledgement, without the tag. */
  function EncodeLifecycleBody<HttpRequest, HttpResponse, Workspace, Environment, Folder, GrpcRequest>(m: B.Models<HttpRequest, HttpResponse, Workspace, Environment, Folder, GrpcRequest>, p: InternalEventPayload<HttpRequest, HttpResponse, Workspace, Environment, Folder, GrpcRequest>): (r: Fields)
    requires LifecyclePayload(p)
    ensures "type" !in r
  {
    match p
    case BootRequest(x) => B.EncodeBootRequest(x)
    case BootResponse(x) => B.EncodeBootResponse(x)
    case ReloadRequest(x) => B.EncodeEmptyPayload(x)
    case ReloadResponse(x) => B.EncodeEmptyPayload(x)
    case TerminateRequest => map[]
    case TerminateResponse => map[]
    case EmptyResponse(x) => B.EncodeEmptyPayload(x)
  }

  /** The fields of a body for importing, filtering and exporting content, without the tag. */
  function EncodeContentBody<HttpRequest, HttpResponse, Workspace, Environment, Folder, GrpcRequest>(m: B.Models<HttpRequest, HttpResponse, Workspace, Environment, Folder, GrpcRequest>, p: InternalEventPayload<HttpRequest, HttpResponse, Workspace, Environment, Folder, GrpcRequest>): (r: Fields)
    requires ContentPayload(p)
    ensures "type" !in r
  {
    match p
    case ImportRequest(x) => B.EncodeContent(x)
    case ImportResponse(x) => B.EncodeImportResponse(m, x)
    case FilterRequest(x) => B.EncodeFilterRequest(x)
    case FilterResponse(x) => B.EncodeContent(x)
    case ExportHttpRequestRequest(x) => B.EncodeHttpRequestBody(m.httpRequest, x)
    case ExportHttpRequestResponse(x) => B.EncodeContent(x)
  }

  /** The fields of a body for sending and rendering HTTP requests, without the tag. */
  function EncodeHttpBody<HttpRequest, HttpResponse, Workspace, Environment, Folder, GrpcRequest>(m: B.Models<HttpRequest, HttpResponse, Workspace, Environment, Folder, GrpcRequest>, p: InternalEventPayload<HttpRequest, HttpResponse, Workspace, Environment, Folder, GrpcRequest>): (r: Fields)
    requires HttpPayload(p)
    ensures "type" !in r
  {
    match p
    case SendHttpRequestRequest(x) => B.EncodeHttpRequestBody(m.httpRequest, x)
    case SendHttpRequestResponse(x) => B.EncodeSendHttpRequestResponse(m.httpResponse, x)
    case RenderHttpRequestRequest(x) => B.EncodeRenderHttpRequestRequest(m.httpRequest, x)
    case RenderHttpRequestResponse(x) => B.EncodeHttpRequestBody(m.httpRequest, x)
  }

  /** The fields of a body for looking up stored HTTP requests and responses, without the tag. */
  function EncodeLookupBody<HttpRequest, HttpResponse, Workspace, Environment, Folder, GrpcRequest>(m: B.Models<HttpRequest, HttpResponse, Workspace, Environment, Folder, GrpcRequest>, p: InternalEventPayload<HttpRequest, HttpResponse, Workspace, Environment, Folder, GrpcRequest>): (r: Fields)
    requires LookupPayload(p)
    ensures "type" !in r
  {
    match p
    case GetHttpRequestByIdRequest(x) => B.EncodeGetHttpRequestByIdRequest(x)
    case GetHttpRequestByIdResponse(x) => B.EncodeGetHttpRequestByIdResponse(m.httpRequest, x)
    case FindHttpResponsesRequest(x) => B.EncodeFindHttpResponsesRequest(x)
    case FindHttpResponsesResponse(x) => B.EncodeFindHttpResponsesResponse(m.httpResponse, x)
  }

  /** The fields of a body for template functions and template rendering, without the tag. */
  function EncodeTemplateBody<HttpRequest, HttpResponse, Workspace, Environment, Folder, GrpcRequest>(m: B.Models<HttpRequest, HttpResponse, Workspace, Environment, Folder, GrpcRequest>, p: InternalEventPayload<HttpRequest, HttpResponse, Workspace, Environment, Folder, GrpcRequest>): (r: Fields)
    requires TemplatePayload(p)
    ensures "type" !in r
  {
    match p
    case GetTemplateFunctionsRequest => map[]
    case GetTemplateFunctionsResponse(x) => B.EncodeGetTemplateFunctionsResponse(x)
    case CallTemplateFunctionRequest(x) => B.EncodeCallTemplateFunctionRequest(x)
    case CallTemplateFunctionResponse(x) => B.EncodeOptionalValue(x)
    case TemplateRenderRequest(x) => B.EncodeTemplateRenderRequest(x)
    case TemplateRenderResponse(x) => B.EncodeTemplateRenderResponse(x)
  }

  /** The fields of a body for HTTP request actions, without the tag. */
  function EncodeActionBody<HttpRequest, HttpResponse, Workspace, Environment, Folder, GrpcRequest>(m: B.Models<HttpRequest, HttpResponse, Workspace, Environment, Folder, GrpcRequest>, p: InternalEventPayload<HttpRequest, HttpResponse, Workspace, Environment, Folder, GrpcRequest>): (r: Fields)
    requires ActionPayload(p)
    ensures "type" !in r
  {
    match p
    case GetHttpRequestActionsRequest(x) => B.EncodeEmptyPayload(x)
    case GetHttpRequestActionsResponse(x) => B.EncodeGetHttpRequestActionsResponse(x)
    case CallHttpRequestActionRequest(x) => B.EncodeCallHttpRequestActionRequest(m.httpRequest, x)
  }

  /** The fields of a body for HTTP authentication, without the tag. */
  function EncodeAuthenticationBody<HttpRequest, HttpResponse, Workspace, Environment, Folder, GrpcRequest>(m: B.Models<HttpRequest, HttpResponse, Workspace, Environment, Folder, GrpcRequest>, p: InternalEventPayload<HttpRequest, HttpResponse, Workspace, Environment, Folder, GrpcRequest>): (r: Fields)
    requires AuthenticationPayload(p)
    ensures "type" !in r
  {
    match p
    case GetHttpAuthenticationRequest(x) => B.EncodeEmptyPayload(x)
    case GetHttpAuthenticationResponse(x) => B.EncodeGetHttpAuthenticationResponse(x)
    case CallHttpAuthenticationRequest(x) => B.EncodeCallHttpAuthenticationRequest(x)
    case CallHttpAuthenticationResponse(x) => B.EncodeCallHttpAuthenticationResponse(x)
  }

  /** The fields of a body for the user-interface requests: copying text, toasts and prompts, without the tag. */
  function EncodeUiBody<HttpRequest, HttpResponse, Workspace, Environment, Folder, GrpcRequest>(m: B.Models<HttpRequest, HttpResponse, Workspace, Environment, Folder, GrpcRequest>, p: InternalEventPayload<HttpRequest, HttpResponse, Workspace, Environment, Folder, GrpcRequest>): (r: Fields)
    requires UiPayload(p)
    ensures "type" !in r
  {
    match p
    case CopyTextRequest(x) => B.EncodeCopyTextRequest(x)
    case ShowToastRequest(x) => B.EncodeShowToastRequest(x)
    case PromptTextRequest(x) => B.EncodePromptTextRequest(x)
    case PromptTextResponse(x) => B.EncodeOptionalValue(x)
  }

  /** The body's fields, without the tag. */
  function EncodeBody<HttpRequest, HttpResponse, Workspace, Environment, Folder, GrpcRequest>(m: B.Models<HttpRequest, HttpResponse, Workspace, Environment, Folder, GrpcRequest>, p: InternalEventPayload<HttpRequest, HttpResponse, Workspace, Environment, Folder, GrpcRequest>): (r: Fields)
    ensures "type" !in r
  {
    if LifecyclePayload(p) then EncodeLifecycleBody(m, p)
    else if ContentPayload(p) then EncodeContentBody(m, p)
    else if HttpPayload(p) then EncodeHttpBody(m, p)
    else if LookupPayload(p) then EncodeLookupBody(m, p)
    else if TemplatePayload(p) then EncodeTemplateBody(m, p)
    else if ActionPayload(p) then EncodeActionBody(m, p)
    else if AuthenticationPayload(p) then EncodeAuthenticationBody(m, p)
    else EncodeUiBody(m, p)
  }

  /** The payload written as serde writes it: the body's fields and the tag. */
  function EncodePayload<HttpRequest, HttpResponse, Workspace, Environment, Folder, GrpcRequest>(m: B.Models<HttpRequest, HttpResponse, Workspace, Environment, Folder, GrpcRequest>, p: InternalEventPayload<HttpRequest, HttpResponse, Workspace, Environment, Folder, GrpcRequest>): (r: Json)
    ensures r.Object? && r.fields == EncodeBody(m, p)["type" := Str(C.Tag(VariantOf(p)))]
  {
    Object(EncodeBody(m, p)["type" := Str(C.Tag(VariantOf(p)))])
  }

  /** The body of a variant for starting, reloading and stopping a plugin, and the empty acknowledgement, read from the keys beside the tag. */
  function DecodeLifecycleBody<HttpRequest, HttpResponse, Workspace, Environment, Folder, GrpcRequest>(m: B.Models<HttpRequest, HttpResponse, Workspace, Environment, Folder, GrpcRequest>, v: C.Variant, o: Fields): (r: Decoded<InternalEventPayload<HttpRequest, HttpResponse, Workspace, Environment, Folder, GrpcRequest>>)
    requires LifecycleVariant(v)
    ensures r.Ok? ==> VariantOf(r.value) == v
    ensures o == map[] ==> r.Ok?
  {
    match v
    case BootRequest =>
      var x :- B.DecodeBootRequest(o);
      Ok(BootRequest(x))
    case BootResponse =>
      var x :- B.DecodeBootResponse(o);
      Ok(BootResponse(x))
    case ReloadRequest => Ok(ReloadRequest(B.EmptyPayload))
    case ReloadResponse => Ok(ReloadResponse(B.EmptyPayload))
    case TerminateRequest => Ok(TerminateRequest)
    case TerminateResponse => Ok(TerminateResponse)
    case EmptyResponse => Ok(EmptyResponse(B.EmptyPayload))
  }

  /** The body of a variant for importing, filtering and exporting content, read from the keys beside the tag. */
  function DecodeContentBody<HttpRequest, HttpResponse, Workspace, Environment, Folder, GrpcRequest>(m: B.Models<HttpRequest, HttpResponse, Workspace, Environment, Folder, GrpcRequest>, v: C.Variant, o: Fields): (r: Decoded<InternalEventPayload<HttpRequest, HttpResponse, Workspace, Environment, Folder, GrpcRequest>>)
    requires ContentVariant(v)
    ensures r.Ok? ==> VariantOf(r.value) == v
    ensures o == map[] ==> r.Ok?
  {
    match v
    case ImportRequest =>
      var x :- B.DecodeContent(o);
      Ok(ImportRequest(x))
    case ImportResponse =>
      var x :- B.DecodeImportResponse(m, o);
      Ok(ImportResponse(x))
    case FilterRequest =>
      var x :- B.DecodeFilterRequest(o);
      Ok(FilterRequest(x))
    case FilterResponse =>
      var x :- B.DecodeContent(o);
      Ok(FilterResponse(x))
    case ExportHttpRequestRequest =>
      var x :- B.DecodeHttpRequestBody(m.httpRequest, o);
      Ok(ExportHttpRequestRequest(x))
    case ExportHttpRequestResponse =>
      var x :- B.DecodeContent(o);
      Ok(ExportHttpRequestResponse(x))
  }

  /** The body of a variant for sending and rendering HTTP requests, read from the keys beside the tag. */
  function DecodeHttpBody<HttpRequest, HttpResponse, Workspace, Environment, Folder, GrpcRequest>(m: B.Models<HttpRequest, HttpResponse, Workspace, Environment, Folder, GrpcRequest>, v: C.Variant, o: Fields): (r: Decoded<InternalEventPayload<HttpRequest, HttpResponse, Workspace, Environment, Folder, GrpcRequest>>)
    requires HttpVariant(v)
    ensures r.Ok? ==> VariantOf(r.value) == v
    ensures o == map[] ==> r.Ok?
  {
    match v
    case SendHttpRequestRequest =>
      var x :- B.DecodeHttpRequestBody(m.httpRequest, o);
      Ok(SendHttpRequestRequest(x))
    case SendHttpRequestResponse =>
      var x :- B.DecodeSendHttpRequestResponse(m.httpResponse, o);
      Ok(SendHttpRequestResponse(x))
    case RenderHttpRequestRequest =>
      var x :- B.DecodeRenderHttpRequestRequest(m.httpRequest, o);
      Ok(RenderHttpRequestRequest(x))
    case RenderHttpRequestResponse =>
      var x :- B.DecodeHttpRequestBody(m.httpRequest, o);
      Ok(RenderHttpRequestResponse(x))
  }

  /** The body of a variant for looking up stored HTTP requests and responses, read from the keys beside the tag. */
  function DecodeLookupBody<HttpRequest, HttpResponse, Workspace, Environment, Folder, GrpcRequest>(m: B.Models<HttpRequest, HttpResponse, Workspace, Environment, Folder, GrpcRequest>, v: C.Variant, o: Fields): (r: Decoded<InternalEventPayload<HttpRequest, HttpResponse, Workspace, Environment, Folder, GrpcRequest>>)
    requires LookupVariant(v)
    ensures r.Ok? ==> VariantOf(r.value) == v
    ensures o == map[] ==> r.Ok?
  {
    match v
    case GetHttpRequestByIdRequest =>
      var x :- B.DecodeGetHttpRequestByIdRequest(o);
      Ok(GetHttpRequestByIdRequest(x))
    case GetHttpRequestByIdResponse =>
      var x :- B.DecodeGetHttpRequestByIdResponse(m.httpRequest, o);
      Ok(GetHttpRequestByIdResponse(x))
    case FindHttpResponsesRequest =>
      var x :- B.DecodeFindHttpResponsesRequest(o);
      Ok(FindHttpResponsesRequest(x))
    case FindHttpResponsesResponse =>
      var x :- B.DecodeFindHttpResponsesResponse(m.httpResponse, o);
      Ok(FindHttpResponsesResponse(x))
  }

  /** The body of a variant for template functions and template rendering, read from the keys beside the tag. */
  function DecodeTemplateBody<HttpRequest, HttpResponse, Workspace, Environment, Folder, GrpcRequest>(m: B.Models<HttpRequest, HttpResponse, Workspace, Environment, Folder, GrpcRequest>, v: C.Variant, o: Fields): (r: Decoded<InternalEventPayload<HttpRequest, HttpResponse, Workspace, Environment, Folder, GrpcRequest>>)
    requires TemplateVariant(v)
    ensures r.Ok? ==> VariantOf(r.value) == v
    ensures o == map[] ==> r.Ok?
  {
    match v
    case GetTemplateFunctionsRequest => Ok(GetTemplateFunctionsRequest)
    case GetTemplateFunctionsResponse =>
      var x :- B.DecodeGetTemplateFunctionsResponse(o);
      Ok(GetTemplateFunctionsResponse(x))
    case CallTemplateFunctionRequest =>
      var x :- B.DecodeCallTemplateFunctionRequest(o);
      Ok(CallTemplateFunctionRequest(x))
    case CallTemplateFunctionResponse =>
      var x :- B.DecodeOptionalValue(o);
      Ok(CallTemplateFunctionResponse(x))
    case TemplateRenderRequest =>
      var x :- B.DecodeTemplateRenderRequest(o);
      Ok(TemplateRenderRequest(x))
    case TemplateRenderResponse =>
      var x :- B.DecodeTemplateRenderResponse(o);
      Ok(TemplateRenderResponse(x))
  }

  /** The body of a variant for HTTP request actions, read from the keys beside the tag. */
  function DecodeActionBody<HttpRequest, HttpResponse, Workspace, Environment, Folder, GrpcRequest>(m: B.Models<HttpRequest, HttpResponse, Workspace, Environment, Folder, GrpcRequest>, v: C.Variant, o: Fields): (r: Decoded<InternalEventPayload<HttpRequest, HttpResponse, Workspace, Environment, Folder, GrpcRequest>>)
    requires ActionVariant(v)
    ensures r.Ok? ==> VariantOf(r.value) == v
    ensures o == map[] ==> r.Ok?
  {
    match v
    case GetHttpRequestActionsRequest => Ok(GetHttpRequestActionsRequest(B.EmptyPayload))
    case GetHttpRequestActionsResponse =>
      var x :- B.DecodeGetHttpRequestActionsResponse(o);
      Ok(GetHttpRequestActionsResponse(x))
    case CallHttpRequestActionRequest =>
      var x :- B.DecodeCallHttpRequestActionRequest(m.httpRequest, o);
      Ok(CallHttpRequestActionRequest(x))
  }

  /** The body of a variant for HTTP authentication, read from the keys beside the tag. */
  function DecodeAuthenticationBody<HttpRequest, HttpResponse, Workspace, Environment, Folder, GrpcRequest>(m: B.Models<HttpRequest, HttpResponse, Workspace, Environment, Folder, GrpcRequest>, v: C.Variant, o: Fields): (r: Decoded<InternalEventPayload<HttpRequest, HttpResponse, Workspace, Environment, Folder, GrpcRequest>>)
    requires AuthenticationVariant(v)
    ensures r.Ok? ==> VariantOf(r.value) == v
    ensures o == map[] ==> r.Ok?
  {
    match v
    case GetHttpAuthenticationRequest => Ok(GetHttpAuthenticationRequest(B.EmptyPayload))
    case GetHttpAuthenticationResponse =>
      var x :- B.DecodeGetHttpAuthenticationResponse(o);
      Ok(GetHttpAuthenticationResponse(x))
    case CallHttpAuthenticationRequest =>
      var x :- B.DecodeCallHttpAuthenticationRequest(o);
      Ok(CallHttpAuthenticationRequest(x))
    case CallHttpAuthenticationResponse =>
      var x :- B.DecodeCallHttpAuthenticationResponse(o);
      Ok(CallHttpAuthenticationResponse(x))
  }

  /** The body of a variant for the user-interface requests: copying text, toasts and prompts, read from the keys beside the tag. */
  function DecodeUiBody<HttpRequest, HttpResponse, Workspace, Environment, Folder, GrpcRequest>(m: B.Models<HttpRequest, HttpResponse, Workspace, Environment, Folder, GrpcRequest>, v: C.Variant, o: Fields): (r: Decoded<InternalEventPayload<HttpRequest, HttpResponse, Workspace, Environment, Folder, GrpcRequest>>)
    requires UiVariant(v)
    ensures r.Ok? ==> VariantOf(r.value) == v
    ensures o == map[] ==> r.Ok?
  {
    match v
    case CopyTextRequest =>
      var x :- B.DecodeCopyTextRequest(o);
      Ok(CopyTextRequest(x))
    case ShowToastRequest =>
      var x :- B.DecodeShowToastRequest(o);
      Ok(ShowToastRequest(x))
    case PromptTextRequest =>
      var x :- B.DecodePromptTextRequest(o);
      Ok(PromptTextRequest(x))
    case PromptTextResponse =>
      var x :- B.DecodeOptionalValue(o);
      Ok(PromptTextResponse(x))
  }

  /**
   * The body of variant `v`, read from the keys beside the tag.  A body
   * whose struct is `EmptyPayload` reads from any object; a unit variant
   * ignores every other key.  Every field of a body has a default, so the
   * tag alone reads as a payload of every variant.
   */
  function DecodeBody<HttpRequest, HttpResponse, Workspace, Environment, Folder, GrpcRequest>(m: B.Models<HttpRequest, HttpResponse, Workspace, Environment, Folder, GrpcRequest>, v: C.Variant, o: Fields): (r: Decoded<InternalEventPayload<HttpRequest, HttpResponse, Workspace, Environment, Folder, GrpcRequest>>)
    ensures r.Ok? ==> VariantOf(r.value) == v
    ensures o == map[] ==> r.Ok?
  {
    if LifecycleVariant(v) then DecodeLifecycleBody(m, v, o)
    else if ContentVariant(v) then DecodeContentBody(m, v, o)
    else if HttpVariant(v) then DecodeHttpBody(m, v, o)
    else if LookupVariant(v) then DecodeLookupBody(m, v, o)
    else if TemplateVariant(v) then DecodeTemplateBody(m, v, o)
    else if ActionVariant(v) then DecodeActionBody(m, v, o)
    else if AuthenticationVariant(v) then DecodeAuthenticationBody(m, v, o)
    else DecodeUiBody(m, v, o)
  }

  /**
   * Reading a payload: a JSON object whose "type" is a string naming a
   * catalog variant, the body read from the other keys.
   */
  function DecodePayload<HttpRequest, HttpResponse, Workspace, Environment, Folder, GrpcRequest>(m: B.Models<HttpRequest, HttpResponse, Workspace, Environment, Folder, GrpcRequest>, j: Json): (r: Decoded<InternalEventPayload<HttpRequest, HttpResponse, Workspace, Environment, Folder, GrpcRequest>>)
    ensures r.Ok? ==> j.Object? && "type" in j.fields && j.fields["type"] == Str(C.Tag(VariantOf(r.value)))
    ensures j.Object? && "type" in j.fields && j.fields["type"].Str? && (forall v :: C.Tag(v) != j.fields["type"].s)
      ==> r == Err(UnknownVariant(j.fields["type"].s))
  {
    if !j.Object? then Err(InvalidType("an internally tagged enum"))
    else if "type" !in j.fields then Err(MissingField("type"))
    else if !j.fields["type"].Str? then Err(InvalidType("a string"))
    else
      var tag := j.fields["type"].s;
      C.UnknownTag(tag);
      match C.VariantOfTag(tag)
      case None => Err(UnknownVariant(tag))
      case Some(v) => DecodeBody(m, v, j.fields - {"type"})
  }

  /**
   * The payloads whose body reads back as written: a toast's icon and the
   * actions' icons are canonical (an `Icon::_Unknown` holding a known icon's
   * name reads back as that icon).
   */
  predicate Canonical<HttpRequest, HttpResponse, Workspace, Environment, Folder, GrpcRequest>(p: InternalEventPayload<HttpRequest, HttpResponse, Workspace, Environment, Folder, GrpcRequest>) {
    && (p.ShowToastRequest? && p.showToastRequest.icon.Some? ==> E.CanonicalIcon(p.showToastRequest.icon.value))
    && (p.GetHttpRequestActionsResponse? ==>
          forall i :: 0 <= i < |p.getHttpRequestActionsResponse.actions| ==> B.CanonicalAction(p.getHttpRequestActionsResponse.actions[i]))
  }

  /** A body for starting, reloading and stopping a plugin, and the empty acknowledgement reads back as written, under its own variant. */
  lemma LifecycleBodyRoundTrip<HttpRequest(!new), HttpResponse(!new), Workspace(!new), Environment(!new), Folder(!new), GrpcRequest(!new)>(m: B.Models<HttpRequest, HttpResponse, Workspace, Environment, Folder, GrpcRequest>, p: InternalEventPayload<HttpRequest, HttpResponse, Workspace, Environment, Folder, GrpcRequest>)
    requires B.LawfulModels(m) && Canonical(p)
    requires LifecyclePayload(p)
    ensures LifecycleVariant(VariantOf(p))
    ensures DecodeLifecycleBody(m, VariantOf(p), EncodeLifecycleBody(m, p)) == Ok(p)
  {
    match p
    case BootRequest(x) => B.BootRequestRoundTrip(x);
    case BootResponse(x) => B.BootResponseRoundTrip(x);
    case ReloadRequest(x) => assert x == B.EmptyPayload;
    case ReloadResponse(x) => assert x == B.EmptyPayload;
    case TerminateRequest =>
    case TerminateResponse =>
    case EmptyResponse(x) => assert x == B.EmptyPayload;
  }

  /** A body for importing, filtering and exporting content reads back as written, under its own variant. */
  lemma ContentBodyRoundTrip<HttpRequest(!new), HttpResponse(!new), Workspace(!new), Environment(!new), Folder(!new), GrpcRequest(!new)>(m: B.Models<HttpRequest, HttpResponse, Workspace, Environment, Folder, GrpcRequest>, p: InternalEventPayload<HttpRequest, HttpResponse, Workspace, Environment, Folder, GrpcRequest>)
    requires B.LawfulModels(m) && Canonical(p)
    requires ContentPayload(p)
    ensures ContentVariant(VariantOf(p))
    ensures DecodeContentBody(m, VariantOf(p), EncodeContentBody(m, p)) == Ok(p)
  {
    match p
    case ImportRequest(x) => B.ContentRoundTrip(x);
    case ImportResponse(x) => B.ImportResponseRoundTrip(m, x);
    case FilterRequest(x) => B.FilterRequestRoundTrip(x);
    case FilterResponse(x) => B.ContentRoundTrip(x);
    case ExportHttpRequestRequest(x) => B.HttpRequestBodyRoundTrip(m.httpRequest, x);
    case ExportHttpRequestResponse(x) => B.ContentRoundTrip(x);
  }

  /** A body for sending and rendering HTTP requests reads back as written, under its own variant. */
  lemma HttpBodyRoundTrip<HttpRequest(!new), HttpResponse(!new), Workspace(!new), Environment(!new), Folder(!new), GrpcRequest(!new)>(m: B.Models<HttpRequest, HttpResponse, Workspace, Environment, Folder, GrpcRequest>, p: InternalEventPayload<HttpRequest, HttpResponse, Workspace, Environment, Folder, GrpcRequest>)
    requires B.LawfulModels(m) && Canonical(p)
    requires HttpPayload(p)
    ensures HttpVariant(VariantOf(p))
    ensures DecodeHttpBody(m, VariantOf(p), EncodeHttpBody(m, p)) == Ok(p)
  {
    match p
    case SendHttpRequestRequest(x) => B.HttpRequestBodyRoundTrip(m.httpRequest, x);
    case SendHttpRequestResponse(x) => B.SendHttpRequestResponseRoundTrip(m.httpResponse, x);
    case RenderHttpRequestRequest(x) => B.RenderHttpRequestRequestRoundTrip(m.httpRequest, x);
    case RenderHttpRequestResponse(x) => B.HttpRequestBodyRoundTrip(m.httpRequest, x);
  }

  /** A body for looking up stored HTTP requests and responses reads back as written, under its own variant. */
  lemma LookupBodyRoundTrip<HttpRequest(!new), HttpResponse(!new), Workspace(!new), Environment(!new), Folder(!new), GrpcRequest(!new)>(m: B.Models<HttpRequest, HttpResponse, Workspace, Environment, Folder, GrpcRequest>, p: InternalEventPayload<HttpRequest, HttpResponse, Workspace, Environment, Folder, GrpcRequest>)
    requires B.LawfulModels(m) && Canonical(p)
    requires LookupPayload(p)
    ensures LookupVariant(VariantOf(p))
    ensures DecodeLookupBody(m, VariantOf(p), EncodeLookupBody(m, p)) == Ok(p)
  {
    match p
    case GetHttpRequestByIdRequest(x) => B.GetHttpRequestByIdRequestRoundTrip(x);
    case GetHttpRequestByIdResponse(x) => B.GetHttpRequestByIdResponseRoundTrip(m.httpRequest, x);
    case FindHttpResponsesRequest(x) => B.FindHttpResponsesRequestRoundTrip(x);
    case FindHttpResponsesResponse(x) => B.FindHttpResponsesResponseRoundTrip(m.httpResponse, x);
  }

  /** A body for template functions and template rendering reads back as written, under its own variant. */
  lemma TemplateBodyRoundTrip<HttpRequest(!new), HttpResponse(!new), Workspace(!new), Environment(!new), Folder(!new), GrpcRequest(!new)>(m: B.Models<HttpRequest, HttpResponse, Workspace, Environment, Folder, GrpcRequest>, p: InternalEventPayload<HttpRequest, HttpResponse, Workspace, Environment, Folder, GrpcRequest>)
    requires B.LawfulModels(m) && Canonical(p)
    requires TemplatePayload(p)
    ensures TemplateVariant(VariantOf(p))
    ensures DecodeTemplateBody(m, VariantOf(p), EncodeTemplateBody(m, p)) == Ok(p)
  {
    match p
    case GetTemplateFunctionsRequest =>
    case GetTemplateFunctionsResponse(x) => B.GetTemplateFunctionsResponseRoundTrip(x);
    case CallTemplateFunctionRequest(x) => B.CallTemplateFunctionRequestRoundTrip(x);
    case CallTemplateFunctionResponse(x) => B.OptionalValueRoundTrip(x);
    case TemplateRenderRequest(x) => B.TemplateRenderRequestRoundTrip(x);
    case TemplateRenderResponse(x) => B.TemplateRenderResponseRoundTrip(x);
  }

  /** A body for HTTP request actions reads back as written, under its own variant. */
  lemma ActionBodyRoundTrip<HttpRequest(!new), HttpResponse(!new), Workspace(!new), Environment(!new), Folder(!new), GrpcRequest(!new)>(m: B.Models<HttpRequest, HttpResponse, Workspace, Environment, Folder, GrpcRequest>, p: InternalEventPayload<HttpRequest, HttpResponse, Workspace, Environment, Folder, GrpcRequest>)
    requires B.LawfulModels(m) && Canonical(p)
    requires ActionPayload(p)
    ensures ActionVariant(VariantOf(p))
    ensures DecodeActionBody(m, VariantOf(p), EncodeActionBody(m, p)) == Ok(p)
  {
    match p
    case GetHttpRequestActionsRequest(x) => assert x == B.EmptyPayload;
    case GetHttpRequestActionsResponse(x) => B.GetHttpRequestActionsResponseRoundTrip(x);
    case CallHttpRequestActionRequest(x) => B.CallHttpRequestActionRequestRoundTrip(m.httpRequest, x);
  }

  /** A body for HTTP authentication reads back as written, under its own variant. */
  lemma AuthenticationBodyRoundTrip<HttpRequest(!new), HttpResponse(!new), Workspace(!new), Environment(!new), Folder(!new), GrpcRequest(!new)>(m: B.Models<HttpRequest, HttpResponse, Workspace, Environment, Folder, GrpcRequest>, p: InternalEventPayload<HttpRequest, HttpResponse, Workspace, Environment, Folder, GrpcRequest>)
    requires B.LawfulModels(m) && Canonical(p)
    requires AuthenticationPayload(p)
    ensures AuthenticationVariant(VariantOf(p))
    ensures DecodeAuthenticationBody(m, VariantOf(p), EncodeAuthenticationBody(m, p)) == Ok(p)
  {
    match p
    case GetHttpAuthenticationRequest(x) => assert x == B.EmptyPayload;
    case GetHttpAuthenticationResponse(x) => B.GetHttpAuthenticationResponseRoundTrip(x);
    case CallHttpAuthenticationRequest(x) => B.CallHttpAuthenticationRequestRoundTrip(x);
    case CallHttpAuthenticationResponse(x) => B.CallHttpAuthenticationResponseRoundTrip(x);
  }

  /** A body for the user-interface requests: copying text, toasts and prompts reads back as written, under its own variant. */
  lemma UiBodyRoundTrip<HttpRequest(!new), HttpResponse(!new), Workspace(!new), Environment(!new), Folder(!new), GrpcRequest(!new)>(m: B.Models<HttpRequest, HttpResponse, Workspace, Environment, Folder, GrpcRequest>, p: InternalEventPayload<HttpRequest, HttpResponse, Workspace, Environment, Folder, GrpcRequest>)
    requires B.LawfulModels(m) && Canonical(p)
    requires UiPayload(p)
    ensures UiVariant(VariantOf(p))
    ensures DecodeUiBody(m, VariantOf(p), EncodeUiBody(m, p)) == Ok(p)
  {
    match p
    case CopyTextRequest(x) => B.CopyTextRequestRoundTrip(x);
    case ShowToastRequest(x) => B.ShowToastRequestRoundTrip(x);
    case PromptTextRequest(x) => B.PromptTextRequestRoundTrip(x);
    case PromptTextResponse(x) => B.OptionalValueRoundTrip(x);
  }

  /** A catalog variant belongs to exactly one family. */
  lemma VariantFamilies(v: C.Variant)
    ensures LifecycleVariant(v) || ContentVariant(v) || HttpVariant(v) || LookupVariant(v) || TemplateVariant(v) || ActionVariant(v) || AuthenticationVariant(v) || UiVariant(v)
    ensures (LifecycleVariant(v) ==> !ContentVariant(v) && !HttpVariant(v) && !LookupVariant(v) && !TemplateVariant(v) && !ActionVariant(v) && !AuthenticationVariant(v) && !UiVariant(v))
    ensures (ContentVariant(v) ==> !HttpVariant(v) && !LookupVariant(v) && !TemplateVariant(v) && !ActionVariant(v) && !AuthenticationVariant(v) && !UiVariant(v))
    ensures (HttpVariant(v) ==> !LookupVariant(v) && !TemplateVariant(v) && !ActionVariant(v) && !AuthenticationVariant(v) && !UiVariant(v))
    ensures (LookupVariant(v) ==> !TemplateVariant(v) && !ActionVariant(v) && !AuthenticationVariant(v) && !UiVariant(v))
    ensures (TemplateVariant(v) ==> !ActionVariant(v) && !AuthenticationVariant(v) && !UiVariant(v))
    ensures (ActionVariant(v) ==> !AuthenticationVariant(v) && !UiVariant(v))
    ensures (AuthenticationVariant(v) ==> !UiVariant(v))
  {
  }

  /** A payload belongs to exactly one family. */
  lemma PayloadFamilies<HttpRequest, HttpResponse, Workspace, Environment, Folder, GrpcRequest>(p: InternalEventPayload<HttpRequest, HttpResponse, Workspace, Environment, Folder, GrpcRequest>)
    ensures LifecyclePayload(p) || ContentPayload(p) || HttpPayload(p) || LookupPayload(p) || TemplatePayload(p) || ActionPayload(p) || AuthenticationPayload(p) || UiPayload(p)
    ensures (LifecyclePayload(p) ==> !ContentPayload(p) && !HttpPayload(p) && !LookupPayload(p) && !TemplatePayload(p) && !ActionPayload(p) && !AuthenticationPayload(p) && !UiPayload(p))
    ensures (ContentPayload(p) ==> !HttpPayload(p) && !LookupPayload(p) && !TemplatePayload(p) && !ActionPayload(p) && !AuthenticationPayload(p) && !UiPayload(p))
    ensures (HttpPayload(p) ==> !LookupPayload(p) && !TemplatePayload(p) && !ActionPayload(p) && !AuthenticationPayload(p) && !UiPayload(p))
    ensures (LookupPayload(p) ==> !TemplatePayload(p) && !ActionPayload(p) && !AuthenticationPayload(p) && !UiPayload(p))
    ensures (TemplatePayload(p) ==> !ActionPayload(p) && !AuthenticationPayload(p) && !UiPayload(p))
    ensures (ActionPayload(p) ==> !AuthenticationPayload(p) && !UiPayload(p))
    ensures (AuthenticationPayload(p) ==> !UiPayload(p))
  {
  }

  /** Every body reads back as written, under the payload's own variant. */
  lemma BodyRoundTrip<HttpRequest(!new), HttpResponse(!new), Workspace(!new), Environment(!new), Folder(!new), GrpcRequest(!new)>(m: B.Models<HttpRequest, HttpResponse, Workspace, Environment, Folder, GrpcRequest>, p: InternalEventPayload<HttpRequest, HttpResponse, Workspace, Environment, Folder, GrpcRequest>)
    requires B.LawfulModels(m) && Canonical(p)
    ensures DecodeBody(m, VariantOf(p), EncodeBody(m, p)) == Ok(p)
  {
    PayloadFamilies(p);
    VariantFamilies(VariantOf(p));
    if LifecyclePayload(p) {
      LifecycleBodyRoundTrip(m, p);
    }     else if ContentPayload(p) {
      ContentBodyRoundTrip(m, p);
    }     else if HttpPayload(p) {
      HttpBodyRoundTrip(m, p);
    }     else if LookupPayload(p) {
      LookupBodyRoundTrip(m, p);
    }     else if TemplatePayload(p) {
      TemplateBodyRoundTrip(m, p);
    }     else if ActionPayload(p) {
      ActionBodyRoundTrip(m, p);
    }     else if AuthenticationPayload(p) {
      AuthenticationBodyRoundTrip(m, p);
    } else {
      UiBodyRoundTrip(m, p);
    }
  }

  /**
   * Reading back a written payload gives the payload: the tag names the
   * payload's variant and the body reads back under it.
   */
  lemma PayloadRoundTrip<HttpRequest(!new), HttpResponse(!new), Workspace(!new), Environment(!new), Folder(!new), GrpcRequest(!new)>(m: B.Models<HttpRequest, HttpResponse, Workspace, Environment, Folder, GrpcRequest>, p: InternalEventPayload<HttpRequest, HttpResponse, Workspace, Environment, Folder, GrpcRequest>)
    requires B.LawfulModels(m) && Canonical(p)
    ensures DecodePayload(m, EncodePayload(m, p)) == Ok(p)
  {
    BodyRoundTrip(m, p);
    C.TagRoundTrip(VariantOf(p));
    TagRemoved(EncodeBody(m, p), Str(C.Tag(VariantOf(p))));
  }

  /** An object holding only a variant's tag reads as a payload of that variant. */
  lemma TagOnly<HttpRequest, HttpResponse, Workspace, Environment, Folder, GrpcRequest>(m: B.Models<HttpRequest, HttpResponse, Workspace, Environment, Folder, GrpcRequest>, v: C.Variant)
    ensures DecodePayload(m, Object(map["type" := Str(C.Tag(v))])).Ok?
    ensures VariantOf(DecodePayload(m, Object(map["type" := Str(C.Tag(v))])).value) == v
  {
    C.TagRoundTrip(v);
    assert map["type" := Str(C.Tag(v))] - {"type"} == map[];
  }

  /**
   * `TerminateRequest`, `TerminateResponse` and `GetTemplateFunctionsRequest`
   * are unit variants: no body is written beside the tag.
   */
  lemma UnitVariantsWritten<HttpRequest, HttpResponse, Workspace, Environment, Folder, GrpcRequest>(m: B.Models<HttpRequest, HttpResponse, Workspace, Environment, Folder, GrpcRequest>)
    ensures EncodeBody(m, TerminateRequest) == map[]
    ensures EncodeBody(m, TerminateResponse) == map[]
    ensures EncodeBody(m, GetTemplateFunctionsRequest) == map[]
  {
  }

  /** A unit variant reads from any object: the keys beside the tag are ignored. */
  lemma UnitVariantsRead<HttpRequest, HttpResponse, Workspace, Environment, Folder, GrpcRequest>(m: B.Models<HttpRequest, HttpResponse, Workspace, Environment, Folder, GrpcRequest>, o: Fields)
    ensures DecodeBody(m, C.TerminateRequest, o) == Ok(TerminateRequest)
    ensures DecodeBody(m, C.TerminateResponse, o) == Ok(TerminateResponse)
    ensures DecodeBody(m, C.GetTemplateFunctionsRequest, o) == Ok(GetTemplateFunctionsRequest)
  {
  }

  /** Removing the tag from a written payload leaves the body's fields. */
  lemma TagRemoved(b: Fields, tag: Json)
    requires "type" !in b
    ensures b["type" := tag] - {"type"} == b
  {
  }
}
