/**
 * The payload bodies of the plugin-event union.  Every body struct is
 * `#[serde(default, rename_all = "camelCase")]`: fields are written under
 * their camelCase names, and a missing key takes the field's default
 * (empty string, false, None, empty list, `RenderPurpose::Preview`, or the
 * foreign type's own default).  Entities of the model crate (HTTP requests
 * and responses, workspaces, environments, folders, gRPC requests) are type
 * parameters that come with a `Codec`.
 */
module PayloadBodies {
  import opened Wrappers
  import opened SerdeJson
  import E = PluginEnums
  import F = FormInputs

  /** The codecs of the six entity types the events carry but do not define. */
  datatype Models<!HttpRequest, !HttpResponse, !Workspace, !Environment, !Folder, !GrpcRequest> = Models(
    httpRequest: Codec<HttpRequest>,
    httpResponse: Codec<HttpResponse>,
    workspace: Codec<Workspace>,
    environment: Codec<Environment>,
    folder: Codec<Folder>,
    grpcRequest: Codec<GrpcRequest>)

  ghost predicate LawfulModels<HttpRequest(!new), HttpResponse(!new), Workspace(!new), Environment(!new), Folder(!new), GrpcRequest(!new)>(
    m: Models<HttpRequest, HttpResponse, Workspace, Environment, Folder, GrpcRequest>)
  {
    Lawful(m.httpRequest) && Lawful(m.httpResponse) && Lawful(m.workspace)
    && Lawful(m.environment) && Lawful(m.folder) && Lawful(m.grpcRequest)
  }

  // ---- EmptyPayload ----

  datatype EmptyPayload = EmptyPayload

  function EncodeEmptyPayload(x: EmptyPayload): (r: Fields)
    ensures r == map[]
  {
    map[]
  }

  /** Any object is an empty payload: its keys are ignored. */
  function DecodeEmptyPayload(o: Fields): (r: Decoded<EmptyPayload>)
    ensures r == Ok(EmptyPayload)
  {
    Ok(EmptyPayload)
  }

  // ---- BootRequest / BootResponse ----

  datatype BootRequest = BootRequest(dir: string, watch: bool)

  function EncodeBootRequest(x: BootRequest): (r: Fields)
    ensures r.Keys == {"dir", "watch"}
  {
    map["dir" := Str(x.dir), "watch" := Bool(x.watch)]
  }

  function DecodeBootRequest(o: Fields): (r: Decoded<BootRequest>)
    ensures o == map[] ==> r == Ok(BootRequest("", false))
  {
    var dir :- Field(o, "dir", DecodeString, "");
    var watch :- Field(o, "watch", DecodeBool, false);
    Ok(BootRequest(dir, watch))
  }

  lemma BootRequestRoundTrip(x: BootRequest)
    ensures DecodeBootRequest(EncodeBootRequest(x)) == Ok(x)
  {
  }

  datatype BootResponse = BootResponse(name: string, version: string, capabilities: seq<string>)

  function EncodeBootResponse(x: BootResponse): (r: Fields)
    ensures r.Keys == {"name", "version", "capabilities"}
  {
    map["name" := Str(x.name), "version" := Str(x.version), "capabilities" := EncodeSeq(EncodeString, x.capabilities)]
  }

  function DecodeBootResponse(o: Fields): (r: Decoded<BootResponse>)
    ensures o == map[] ==> r == Ok(BootResponse("", "", []))
  {
    var name :- Field(o, "name", DecodeString, "");
    var version :- Field(o, "version", DecodeString, "");
    var capabilities :- SeqField(o, "capabilities", DecodeString);
    Ok(BootResponse(name, version, capabilities))
  }

  lemma BootResponseRoundTrip(x: BootResponse)
    ensures DecodeBootResponse(EncodeBootResponse(x)) == Ok(x)
  {
    SeqRoundTrip(EncodeString, DecodeString, x.capabilities);
  }

  // ---- bodies that carry one string ----

  /** `ImportRequest`, `FilterResponse` and `ExportHttpRequestResponse`: one `content` string. */
  datatype Content = Content(content: string)

  function EncodeContent(x: Content): (r: Fields)
    ensures r.Keys == {"content"}
  {
    map["content" := Str(x.content)]
  }

  function DecodeContent(o: Fields): (r: Decoded<Content>)
    ensures o == map[] ==> r == Ok(Content(""))
  {
    var content :- Field(o, "content", DecodeString, "");
    Ok(Content(content))
  }

  lemma ContentRoundTrip(x: Content)
    ensures DecodeContent(EncodeContent(x)) == Ok(x)
  {
  }

  datatype FilterRequest = FilterRequest(content: string, filter: string)

  function EncodeFilterRequest(x: FilterRequest): (r: Fields)
    ensures r.Keys == {"content", "filter"}
  {
    map["content" := Str(x.content), "filter" := Str(x.filter)]
  }

  function DecodeFilterRequest(o: Fields): (r: Decoded<FilterRequest>)
    ensures o == map[] ==> r == Ok(FilterRequest("", ""))
  {
    var content :- Field(o, "content", DecodeString, "");
    var filter :- Field(o, "filter", DecodeString, "");
    Ok(FilterRequest(content, filter))
  }

  lemma FilterRequestRoundTrip(x: FilterRequest)
    ensures DecodeFilterRequest(EncodeFilterRequest(x)) == Ok(x)
  {
  }

  datatype CopyTextRequest = CopyTextRequest(text: string)

  function EncodeCopyTextRequest(x: CopyTextRequest): (r: Fields)
    ensures r.Keys == {"text"}
  {
    map["text" := Str(x.text)]
  }

  function DecodeCopyTextRequest(o: Fields): (r: Decoded<CopyTextRequest>)
    ensures o == map[] ==> r == Ok(CopyTextRequest(""))
  {
    var text :- Field(o, "text", DecodeString, "");
    Ok(CopyTextRequest(text))
  }

  lemma CopyTextRequestRoundTrip(x: CopyTextRequest)
    ensures DecodeCopyTextRequest(EncodeCopyTextRequest(x)) == Ok(x)
  {
  }

  datatype GetHttpRequestByIdRequest = GetHttpRequestByIdRequest(id: string)

  function EncodeGetHttpRequestByIdRequest(x: GetHttpRequestByIdRequest): (r: Fields)
    ensures r.Keys == {"id"}
  {
    map["id" := Str(x.id)]
  }

  function DecodeGetHttpRequestByIdRequest(o: Fields): (r: Decoded<GetHttpRequestByIdRequest>)
    ensures o == map[] ==> r == Ok(GetHttpRequestByIdRequest(""))
  {
    var id :- Field(o, "id", DecodeString, "");
    Ok(GetHttpRequestByIdRequest(id))
  }

  lemma GetHttpRequestByIdRequestRoundTrip(x: GetHttpRequestByIdRequest)
    ensures DecodeGetHttpRequestByIdRequest(EncodeGetHttpRequestByIdRequest(x)) == Ok(x)
  {
  }

  /** `PromptTextResponse` and `CallTemplateFunctionResponse`: an optional `value`. */
  datatype OptionalValue = OptionalValue(value: Option<string>)

  function EncodeOptionalValue(x: OptionalValue): (r: Fields)
    ensures r.Keys == {"value"}
  {
    map["value" := EncodeOption(EncodeString, x.value)]
  }

  function DecodeOptionalValue(o: Fields): (r: Decoded<OptionalValue>)
    ensures o == map[] ==> r == Ok(OptionalValue(None))
  {
    var value :- Optional(o, "value", DecodeString);
    Ok(OptionalValue(value))
  }

  lemma OptionalValueRoundTrip(x: OptionalValue)
    ensures DecodeOptionalValue(EncodeOptionalValue(x)) == Ok(x)
  {
    OptionRoundTrip(EncodeString, DecodeString, x.value);
  }

  // ---- ImportResponse ----

  datatype ImportResources<Workspace, Environment, Folder, HttpRequest, GrpcRequest> = ImportResources(
    workspaces: seq<Workspace>,
    environments: seq<Environment>,
    folders: seq<Folder>,
    httpRequests: seq<HttpRequest>,
    grpcRequests: seq<GrpcRequest>)

  function EncodeImportResources<HttpRequest, HttpResponse, Workspace, Environment, Folder, GrpcRequest>(
    m: Models<HttpRequest, HttpResponse, Workspace, Environment, Folder, GrpcRequest>,
    x: ImportResources<Workspace, Environment, Folder, HttpRequest, GrpcRequest>): (r: Json)
    ensures r.Object? && r.fields.Keys == {"workspaces", "environments", "folders", "httpRequests", "grpcRequests"}
  {
    Object(map[
      "workspaces" := EncodeSeq(m.workspace.encode, x.workspaces),
      "environments" := EncodeSeq(m.environment.encode, x.environments),
      "folders" := EncodeSeq(m.folder.encode, x.folders),
      "httpRequests" := EncodeSeq(m.httpRequest.encode, x.httpRequests),
      "grpcRequests" := EncodeSeq(m.grpcRequest.encode, x.grpcRequests)])
  }

  function DecodeImportResources<HttpRequest, HttpResponse, Workspace, Environment, Folder, GrpcRequest>(
    m: Models<HttpRequest, HttpResponse, Workspace, Environment, Folder, GrpcRequest>,
    j: Json): (r: Decoded<ImportResources<Workspace, Environment, Folder, HttpRequest, GrpcRequest>>)
    ensures j == Object(map[]) ==> r == Ok(ImportResources([], [], [], [], []))
  {
    var o :- DecodeFields(j);
    var workspaces :- SeqField(o, "workspaces", m.workspace.decode);
    var environments :- SeqField(o, "environments", m.environment.decode);
    var folders :- SeqField(o, "folders", m.folder.decode);
    var httpRequests :- SeqField(o, "httpRequests", m.httpRequest.decode);
    var grpcRequests :- SeqField(o, "grpcRequests", m.grpcRequest.decode);
    Ok(ImportResources(workspaces, environments, folders, httpRequests, grpcRequests))
  }

  lemma ImportResourcesRoundTrip<HttpRequest(!new), HttpResponse(!new), Workspace(!new), Environment(!new), Folder(!new), GrpcRequest(!new)>(
    m: Models<HttpRequest, HttpResponse, Workspace, Environment, Folder, GrpcRequest>,
    x: ImportResources<Workspace, Environment, Folder, HttpRequest, GrpcRequest>)
    requires LawfulModels(m)
    ensures DecodeImportResources(m, EncodeImportResources(m, x)) == Ok(x)
  {
    var o := EncodeImportResources(m, x).fields;
    SeqFieldRoundTrip(o, "workspaces", m.workspace.encode, m.workspace.decode, x.workspaces);
    SeqFieldRoundTrip(o, "environments", m.environment.encode, m.environment.decode, x.environments);
    SeqFieldRoundTrip(o, "folders", m.folder.encode, m.folder.decode, x.folders);
    SeqFieldRoundTrip(o, "httpRequests", m.httpRequest.encode, m.httpRequest.decode, x.httpRequests);
    SeqFieldRoundTrip(o, "grpcRequests", m.grpcRequest.encode, m.grpcRequest.decode, x.grpcRequests);
  }

  datatype ImportResponse<Workspace, Environment, Folder, HttpRequest, GrpcRequest> =
    ImportResponse(resources: ImportResources<Workspace, Environment, Folder, HttpRequest, GrpcRequest>)

  function EncodeImportResponse<HttpRequest, HttpResponse, Workspace, Environment, Folder, GrpcRequest>(
    m: Models<HttpRequest, HttpResponse, Workspace, Environment, Folder, GrpcRequest>,
    x: ImportResponse<Workspace, Environment, Folder, HttpRequest, GrpcRequest>): (r: Fields)
    ensures r.Keys == {"resources"}
  {
    map["resources" := EncodeImportResources(m, x.resources)]
  }

  function DecodeImportResponse<HttpRequest, HttpResponse, Workspace, Environment, Folder, GrpcRequest>(
    m: Models<HttpRequest, HttpResponse, Workspace, Environment, Folder, GrpcRequest>,
    o: Fields): (r: Decoded<ImportResponse<Workspace, Environment, Folder, HttpRequest, GrpcRequest>>)
    ensures o == map[] ==> r == Ok(ImportResponse(ImportResources([], [], [], [], [])))
  {
    var resources :- Field(o, "resources", j => DecodeImportResources(m, j), ImportResources([], [], [], [], []));
    Ok(ImportResponse(resources))
  }

  lemma ImportResponseRoundTrip<HttpRequest(!new), HttpResponse(!new), Workspace(!new), Environment(!new), Folder(!new), GrpcRequest(!new)>(
    m: Models<HttpRequest, HttpResponse, Workspace, Environment, Folder, GrpcRequest>,
    x: ImportResponse<Workspace, Environment, Folder, HttpRequest, GrpcRequest>)
    requires LawfulModels(m)
    ensures DecodeImportResponse(m, EncodeImportResponse(m, x)) == Ok(x)
  {
    ImportResourcesRoundTrip(m, x.resources);
  }

  // ---- bodies that carry one model entity ----

  /**
   * `ExportHttpRequestRequest`, `SendHttpRequestRequest`,
   * `RenderHttpRequestResponse` and `CallHttpRequestActionArgs`: one
   * `httpRequest`, the entity's default when missing.
   */
  datatype HttpRequestBody<HttpRequest> = HttpRequestBody(httpRequest: HttpRequest)

  function EncodeHttpRequestBody<HttpRequest>(c: Codec<HttpRequest>, x: HttpRequestBody<HttpRequest>): (r: Fields)
    ensures r.Keys == {"httpRequest"}
  {
    map["httpRequest" := c.encode(x.httpRequest)]
  }

  function DecodeHttpRequestBody<HttpRequest>(c: Codec<HttpRequest>, o: Fields): (r: Decoded<HttpRequestBody<HttpRequest>>)
    ensures o == map[] ==> r == Ok(HttpRequestBody(c.default))
  {
    var httpRequest :- Field(o, "httpRequest", c.decode, c.default);
    Ok(HttpRequestBody(httpRequest))
  }

  lemma HttpRequestBodyRoundTrip<HttpRequest(!new)>(c: Codec<HttpRequest>, x: HttpRequestBody<HttpRequest>)
    requires Lawful(c)
    ensures DecodeHttpRequestBody(c, EncodeHttpRequestBody(c, x)) == Ok(x)
  {
    FieldRoundTrip(EncodeHttpRequestBody(c, x), "httpRequest", c.encode, c.decode, c.default, x.httpRequest);
  }

  datatype SendHttpRequestResponse<HttpResponse> = SendHttpRequestResponse(httpResponse: HttpResponse)

  function EncodeSendHttpRequestResponse<HttpResponse>(c: Codec<HttpResponse>, x: SendHttpRequestResponse<HttpResponse>): (r: Fields)
    ensures r.Keys == {"httpResponse"}
  {
    map["httpResponse" := c.encode(x.httpResponse)]
  }

  function DecodeSendHttpRequestResponse<HttpResponse>(c: Codec<HttpResponse>, o: Fields): (r: Decoded<SendHttpRequestResponse<HttpResponse>>)
    ensures o == map[] ==> r == Ok(SendHttpRequestResponse(c.default))
  {
    var httpResponse :- Field(o, "httpResponse", c.decode, c.default);
    Ok(SendHttpRequestResponse(httpResponse))
  }

  lemma SendHttpRequestResponseRoundTrip<HttpResponse(!new)>(c: Codec<HttpResponse>, x: SendHttpRequestResponse<HttpResponse>)
    requires Lawful(c)
    ensures DecodeSendHttpRequestResponse(c, EncodeSendHttpRequestResponse(c, x)) == Ok(x)
  {
    FieldRoundTrip(EncodeSendHttpRequestResponse(c, x), "httpResponse", c.encode, c.decode, c.default, x.httpResponse);
  }

  datatype RenderHttpRequestRequest<HttpRequest> = RenderHttpRequestRequest(httpRequest: HttpRequest, purpose: E.RenderPurpose)

  function EncodeRenderHttpRequestRequest<HttpRequest>(c: Codec<HttpRequest>, x: RenderHttpRequestRequest<HttpRequest>): (r: Fields)
    ensures r.Keys == {"httpRequest", "purpose"}
  {
    map["httpRequest" := c.encode(x.httpRequest), "purpose" := E.EncodeRenderPurpose(x.purpose)]
  }

  function DecodeRenderHttpRequestRequest<HttpRequest>(c: Codec<HttpRequest>, o: Fields): (r: Decoded<RenderHttpRequestRequest<HttpRequest>>)
    ensures o == map[] ==> r == Ok(RenderHttpRequestRequest(c.default, E.DefaultRenderPurpose))
  {
    var httpRequest :- Field(o, "httpRequest", c.decode, c.default);
    var purpose :- Field(o, "purpose", E.DecodeRenderPurpose, E.DefaultRenderPurpose);
    Ok(RenderHttpRequestRequest(httpRequest, purpose))
  }

  lemma RenderHttpRequestRequestRoundTrip<HttpRequest(!new)>(c: Codec<HttpRequest>, x: RenderHttpRequestRequest<HttpRequest>)
    requires Lawful(c)
    ensures DecodeRenderHttpRequestRequest(c, EncodeRenderHttpRequestRequest(c, x)) == Ok(x)
  {
    var o := EncodeRenderHttpRequestRequest(c, x);
    FieldRoundTrip(o, "httpRequest", c.encode, c.decode, c.default, x.httpRequest);
    E.RenderPurposeRoundTrip(x.purpose);
    FieldRoundTrip(o, "purpose", E.EncodeRenderPurpose, E.DecodeRenderPurpose, E.DefaultRenderPurpose, x.purpose);
  }

  datatype GetHttpRequestByIdResponse<HttpRequest> = GetHttpRequestByIdResponse(httpRequest: Option<HttpRequest>)

  function EncodeGetHttpRequestByIdResponse<HttpRequest>(c: Codec<HttpRequest>, x: GetHttpRequestByIdResponse<HttpRequest>): (r: Fields)
    ensures r.Keys == {"httpRequest"}
  {
    map["httpRequest" := EncodeOption(c.encode, x.httpRequest)]
  }

  function DecodeGetHttpRequestByIdResponse<HttpRequest>(c: Codec<HttpRequest>, o: Fields): (r: Decoded<GetHttpRequestByIdResponse<HttpRequest>>)
    ensures o == map[] ==> r == Ok(GetHttpRequestByIdResponse(None))
  {
    var httpRequest :- Optional(o, "httpRequest", c.decode);
    Ok(GetHttpRequestByIdResponse(httpRequest))
  }

  lemma GetHttpRequestByIdResponseRoundTrip<HttpRequest(!new)>(c: Codec<HttpRequest>, x: GetHttpRequestByIdResponse<HttpRequest>)
    requires Lawful(c)
    ensures DecodeGetHttpRequestByIdResponse(c, EncodeGetHttpRequestByIdResponse(c, x)) == Ok(x)
  {
    OptionalRoundTrip(EncodeGetHttpRequestByIdResponse(c, x), "httpRequest", c.encode, c.decode, x.httpRequest);
  }

  datatype FindHttpResponsesRequest = FindHttpResponsesRequest(requestId: string, limit: Option<I32>)

  function EncodeFindHttpResponsesRequest(x: FindHttpResponsesRequest): (r: Fields)
    ensures r.Keys == {"requestId", "limit"}
  {
    map["requestId" := Str(x.requestId), "limit" := EncodeOption(EncodeI32, x.limit)]
  }

  /** A `limit` outside the 32-bit signed range is rejected. */
  function DecodeFindHttpResponsesRequest(o: Fields): (r: Decoded<FindHttpResponsesRequest>)
    ensures o == map[] ==> r == Ok(FindHttpResponsesRequest("", None))
    ensures "limit" in o && o["limit"].Number? && !(I32Min <= o["limit"].n <= I32Max) ==> r.Err?
  {
    var requestId :- Field(o, "requestId", DecodeString, "");
    var limit :- Optional(o, "limit", DecodeI32);
    Ok(FindHttpResponsesRequest(requestId, limit))
  }

  lemma FindHttpResponsesRequestRoundTrip(x: FindHttpResponsesRequest)
    ensures DecodeFindHttpResponsesRequest(EncodeFindHttpResponsesRequest(x)) == Ok(x)
  {
    OptionalRoundTrip(EncodeFindHttpResponsesRequest(x), "limit", EncodeI32, DecodeI32, x.limit);
  }

  datatype FindHttpResponsesResponse<HttpResponse> = FindHttpResponsesResponse(httpResponses: seq<HttpResponse>)

  function EncodeFindHttpResponsesResponse<HttpResponse>(c: Codec<HttpResponse>, x: FindHttpResponsesResponse<HttpResponse>): (r: Fields)
    ensures r.Keys == {"httpResponses"}
  {
    map["httpResponses" := EncodeSeq(c.encode, x.httpResponses)]
  }

  function DecodeFindHttpResponsesResponse<HttpResponse>(c: Codec<HttpResponse>, o: Fields): (r: Decoded<FindHttpResponsesResponse<HttpResponse>>)
    ensures o == map[] ==> r == Ok(FindHttpResponsesResponse([]))
  {
    var httpResponses :- SeqField(o, "httpResponses", c.decode);
    Ok(FindHttpResponsesResponse(httpResponses))
  }

  lemma FindHttpResponsesResponseRoundTrip<HttpResponse(!new)>(c: Codec<HttpResponse>, x: FindHttpResponsesResponse<HttpResponse>)
    requires Lawful(c)
    ensures DecodeFindHttpResponsesResponse(c, EncodeFindHttpResponsesResponse(c, x)) == Ok(x)
  {
    SeqFieldRoundTrip(EncodeFindHttpResponsesResponse(c, x), "httpResponses", c.encode, c.decode, x.httpResponses);
  }

  // ---- template rendering ----

  datatype TemplateRenderRequest = TemplateRenderRequest(data: Json, purpose: E.RenderPurpose)

  function EncodeTemplateRenderRequest(x: TemplateRenderRequest): (r: Fields)
    ensures r.Keys == {"data", "purpose"}
  {
    map["data" := x.data, "purpose" := E.EncodeRenderPurpose(x.purpose)]
  }

  /** A missing `data` is JSON null; a missing `purpose` is `Preview`. */
  function DecodeTemplateRenderRequest(o: Fields): (r: Decoded<TemplateRenderRequest>)
    ensures o == map[] ==> r == Ok(TemplateRenderRequest(Null, E.DefaultRenderPurpose))
  {
    var data :- Field(o, "data", DecodeValue, Null);
    var purpose :- Field(o, "purpose", E.DecodeRenderPurpose, E.DefaultRenderPurpose);
    Ok(TemplateRenderRequest(data, purpose))
  }

  lemma TemplateRenderRequestRoundTrip(x: TemplateRenderRequest)
    ensures DecodeTemplateRenderRequest(EncodeTemplateRenderRequest(x)) == Ok(x)
  {
    E.RenderPurposeRoundTrip(x.purpose);
  }

  datatype TemplateRenderResponse = TemplateRenderResponse(data: Json)

  function EncodeTemplateRenderResponse(x: TemplateRenderResponse): (r: Fields)
    ensures r.Keys == {"data"}
  {
    map["data" := x.data]
  }

  function DecodeTemplateRenderResponse(o: Fields): (r: Decoded<TemplateRenderResponse>)
    ensures o == map[] ==> r == Ok(TemplateRenderResponse(Null))
  {
    var data :- Field(o, "data", DecodeValue, Null);
    Ok(TemplateRenderResponse(data))
  }

  lemma TemplateRenderResponseRoundTrip(x: TemplateRenderResponse)
    ensures DecodeTemplateRenderResponse(EncodeTemplateRenderResponse(x)) == Ok(x)
  {
  }

  // ---- dialogs ----

  datatype ShowToastRequest = ShowToastRequest(message: string, color: Option<E.Color>, icon: Option<E.Icon>)

  function EncodeShowToastRequest(x: ShowToastRequest): (r: Fields)
    ensures r.Keys == {"message", "color", "icon"}
  {
    map["message" := Str(x.message), "color" := EncodeOption(E.EncodeColor, x.color), "icon" := EncodeOption(E.EncodeIcon, x.icon)]
  }

  function DecodeShowToastRequest(o: Fields): (r: Decoded<ShowToastRequest>)
    ensures o == map[] ==> r == Ok(ShowToastRequest("", None, None))
  {
    var message :- Field(o, "message", DecodeString, "");
    var color :- Optional(o, "color", E.DecodeColor);
    var icon :- Optional(o, "icon", E.DecodeIcon);
    Ok(ShowToastRequest(message, color, icon))
  }

  /** The round trip holds for icons in canonical form; see `PluginEnums.UnknownIconShadowed`. */
  lemma ShowToastRequestRoundTrip(x: ShowToastRequest)
    requires x.icon.Some? ==> E.CanonicalIcon(x.icon.value)
    ensures DecodeShowToastRequest(EncodeShowToastRequest(x)) == Ok(x)
  {
    var o := EncodeShowToastRequest(x);
    if x.color.Some? {
      E.ColorRoundTrip(x.color.value);
    }
    OptionalRoundTrip(o, "color", E.EncodeColor, E.DecodeColor, x.color);
    if x.icon.Some? {
      E.IconRoundTrip(x.icon.value);
    }
    OptionalRoundTrip(o, "icon", E.EncodeIcon, E.DecodeIcon, x.icon);
  }

  datatype PromptTextRequest = PromptTextRequest(
    id: string,
    title: string,
    labelText: string,
    description: Option<string>,
    defaultValue: Option<string>,
    placeholder: Option<string>,
    confirmText: Option<string>,
    cancelText: Option<string>,
    required: Option<bool>)

  function EncodePromptTextRequest(x: PromptTextRequest): (r: Fields)
    ensures r.Keys == {"id", "title", "label", "description", "defaultValue", "placeholder", "confirmText", "cancelText", "required"}
  {
    map[
      "id" := Str(x.id),
      "title" := Str(x.title),
      "label" := Str(x.labelText),
      "description" := EncodeOption(EncodeString, x.description),
      "defaultValue" := EncodeOption(EncodeString, x.defaultValue),
      "placeholder" := EncodeOption(EncodeString, x.placeholder),
      "confirmText" := EncodeOption(EncodeString, x.confirmText),
      "cancelText" := EncodeOption(EncodeString, x.cancelText),
      "required" := EncodeOption(EncodeBool, x.required)]
  }

  function DecodePromptTextRequest(o: Fields): (r: Decoded<PromptTextRequest>)
    ensures o == map[] ==> r == Ok(PromptTextRequest("", "", "", None, None, None, None, None, None))
  {
    var id :- Field(o, "id", DecodeString, "");
    var title :- Field(o, "title", DecodeString, "");
    var labelText :- Field(o, "label", DecodeString, "");
    var description :- Optional(o, "description", DecodeString);
    var defaultValue :- Optional(o, "defaultValue", DecodeString);
    var placeholder :- Optional(o, "placeholder", DecodeString);
    var confirmText :- Optional(o, "confirmText", DecodeString);
    var cancelText :- Optional(o, "cancelText", DecodeString);
    var required :- Optional(o, "required", DecodeBool);
    Ok(PromptTextRequest(id, title, labelText, description, defaultValue, placeholder, confirmText, cancelText, required))
  }

  lemma PromptTextRequestRoundTrip(x: PromptTextRequest)
    ensures DecodePromptTextRequest(EncodePromptTextRequest(x)) == Ok(x)
  {
    var o := EncodePromptTextRequest(x);
    FieldRoundTrip(o, "id", EncodeString, DecodeString, "", x.id);
    FieldRoundTrip(o, "title", EncodeString, DecodeString, "", x.title);
    FieldRoundTrip(o, "label", EncodeString, DecodeString, "", x.labelText);
    OptionalRoundTrip(o, "description", EncodeString, DecodeString, x.description);
    OptionalRoundTrip(o, "defaultValue", EncodeString, DecodeString, x.defaultValue);
    OptionalRoundTrip(o, "placeholder", EncodeString, DecodeString, x.placeholder);
    OptionalRoundTrip(o, "confirmText", EncodeString, DecodeString, x.confirmText);
    OptionalRoundTrip(o, "cancelText", EncodeString, DecodeString, x.cancelText);
    OptionalRoundTrip(o, "required", EncodeBool, DecodeBool, x.required);
  }

  // ---- HTTP authentication ----

  datatype GetHttpAuthenticationResponse = GetHttpAuthenticationResponse(
    name: string, labelText: string, shortLabel: string, config: seq<F.FormInput>)

  function EncodeGetHttpAuthenticationResponse(x: GetHttpAuthenticationResponse): (r: Fields)
    ensures r.Keys == {"name", "label", "shortLabel", "config"}
  {
    map[
      "name" := Str(x.name),
      "label" := Str(x.labelText),
      "shortLabel" := Str(x.shortLabel),
      "config" := F.EncodeFormInputs(x.config)]
  }

  function DecodeGetHttpAuthenticationResponse(o: Fields): (r: Decoded<GetHttpAuthenticationResponse>)
    ensures o == map[] ==> r == Ok(GetHttpAuthenticationResponse("", "", "", []))
  {
    var name :- Field(o, "name", DecodeString, "");
    var labelText :- Field(o, "label", DecodeString, "");
    var shortLabel :- Field(o, "shortLabel", DecodeString, "");
    var config :- Field(o, "config", F.DecodeFormInputs, []);
    Ok(GetHttpAuthenticationResponse(name, labelText, shortLabel, config))
  }

  lemma GetHttpAuthenticationResponseRoundTrip(x: GetHttpAuthenticationResponse)
    ensures DecodeGetHttpAuthenticationResponse(EncodeGetHttpAuthenticationResponse(x)) == Ok(x)
  {
    var o := EncodeGetHttpAuthenticationResponse(x);
    FieldRoundTrip(o, "name", EncodeString, DecodeString, "", x.name);
    FieldRoundTrip(o, "label", EncodeString, DecodeString, "", x.labelText);
    FieldRoundTrip(o, "shortLabel", EncodeString, DecodeString, "", x.shortLabel);
    F.FormInputsRoundTrip(x.config);
    FieldRoundTrip(o, "config", F.EncodeFormInputs, F.DecodeFormInputs, [], x.config);
  }

  datatype HttpHeader = HttpHeader(name: string, value: string)

  function EncodeHttpHeader(x: HttpHeader): (r: Json)
    ensures r.Object? && r.fields.Keys == {"name", "value"}
  {
    Object(map["name" := Str(x.name), "value" := Str(x.value)])
  }

  function DecodeHttpHeader(j: Json): (r: Decoded<HttpHeader>)
    ensures j == Object(map[]) ==> r == Ok(HttpHeader("", ""))
  {
    var o :- DecodeFields(j);
    var name :- Field(o, "name", DecodeString, "");
    var value :- Field(o, "value", DecodeString, "");
    Ok(HttpHeader(name, value))
  }

  lemma HttpHeaderRoundTrip(x: HttpHeader)
    ensures DecodeHttpHeader(EncodeHttpHeader(x)) == Ok(x)
  {
  }

  lemma HttpHeadersRoundTrip(xs: seq<HttpHeader>)
    ensures DecodeSeq(DecodeHttpHeader, EncodeSeq(EncodeHttpHeader, xs)) == Ok(xs)
  {
    forall i | 0 <= i < |xs| ensures DecodeHttpHeader(EncodeHttpHeader(xs[i])) == Ok(xs[i]) {
      HttpHeaderRoundTrip(xs[i]);
    }
    SeqRoundTrip(EncodeHttpHeader, DecodeHttpHeader, xs);
  }

  datatype CallHttpAuthenticationRequest = CallHttpAuthenticationRequest(
    config: map<string, Json>, httpMethod: string, url: string, headers: seq<HttpHeader>)

  function EncodeCallHttpAuthenticationRequest(x: CallHttpAuthenticationRequest): (r: Fields)
    ensures r.Keys == {"config", "method", "url", "headers"}
  {
    map[
      "config" := Object(x.config),
      "method" := Str(x.httpMethod),
      "url" := Str(x.url),
      "headers" := EncodeSeq(EncodeHttpHeader, x.headers)]
  }

  function DecodeCallHttpAuthenticationRequest(o: Fields): (r: Decoded<CallHttpAuthenticationRequest>)
    ensures o == map[] ==> r == Ok(CallHttpAuthenticationRequest(map[], "", "", []))
  {
    var config :- Field(o, "config", DecodeFields, map[]);
    var httpMethod :- Field(o, "method", DecodeString, "");
    var url :- Field(o, "url", DecodeString, "");
    var headers :- SeqField(o, "headers", DecodeHttpHeader);
    Ok(CallHttpAuthenticationRequest(config, httpMethod, url, headers))
  }

  lemma CallHttpAuthenticationRequestRoundTrip(x: CallHttpAuthenticationRequest)
    ensures DecodeCallHttpAuthenticationRequest(EncodeCallHttpAuthenticationRequest(x)) == Ok(x)
  {
    var o := EncodeCallHttpAuthenticationRequest(x);
    FieldRoundTrip(o, "config", (m: Fields) => Object(m), DecodeFields, map[], x.config);
    FieldRoundTrip(o, "method", EncodeString, DecodeString, "", x.httpMethod);
    FieldRoundTrip(o, "url", EncodeString, DecodeString, "", x.url);
    HttpHeadersRoundTrip(x.headers);
    assert o["headers"] == EncodeSeq(EncodeHttpHeader, x.headers);
  }

  datatype CallHttpAuthenticationResponse = CallHttpAuthenticationResponse(setHeaders: seq<HttpHeader>)

  function EncodeCallHttpAuthenticationResponse(x: CallHttpAuthenticationResponse): (r: Fields)
    ensures r.Keys == {"setHeaders"}
  {
    map["setHeaders" := EncodeSeq(EncodeHttpHeader, x.setHeaders)]
  }

  function DecodeCallHttpAuthenticationResponse(o: Fields): (r: Decoded<CallHttpAuthenticationResponse>)
    ensures o == map[] ==> r == Ok(CallHttpAuthenticationResponse([]))
  {
    var setHeaders :- SeqField(o, "setHeaders", DecodeHttpHeader);
    Ok(CallHttpAuthenticationResponse(setHeaders))
  }

  lemma CallHttpAuthenticationResponseRoundTrip(x: CallHttpAuthenticationResponse)
    ensures DecodeCallHttpAuthenticationResponse(EncodeCallHttpAuthenticationResponse(x)) == Ok(x)
  {
    HttpHeadersRoundTrip(x.setHeaders);
  }

  // ---- template functions ----

  datatype TemplateFunction = TemplateFunction(
    name: string, description: Option<string>, aliases: Option<seq<string>>, args: seq<F.FormInput>)

  function EncodeAliases(xs: seq<string>): Json { EncodeSeq(EncodeString, xs) }

  function DecodeAliases(j: Json): Decoded<seq<string>> { DecodeSeq(DecodeString, j) }

  function EncodeTemplateFunction(x: TemplateFunction): (r: Json)
    ensures r.Object? && r.fields.Keys == {"name", "description", "aliases", "args"}
  {
    Object(map[
      "name" := Str(x.name),
      "description" := EncodeOption(EncodeString, x.description),
      "aliases" := EncodeOption(EncodeAliases, x.aliases),
      "args" := F.EncodeFormInputs(x.args)])
  }

  function DecodeTemplateFunction(j: Json): (r: Decoded<TemplateFunction>)
    ensures j == Object(map[]) ==> r == Ok(TemplateFunction("", None, None, []))
  {
    var o :- DecodeFields(j);
    var name :- Field(o, "name", DecodeString, "");
    var description :- Optional(o, "description", DecodeString);
    var aliases :- Optional(o, "aliases", DecodeAliases);
    var args :- Field(o, "args", F.DecodeFormInputs, []);
    Ok(TemplateFunction(name, description, aliases, args))
  }

  lemma TemplateFunctionRoundTrip(x: TemplateFunction)
    ensures DecodeTemplateFunction(EncodeTemplateFunction(x)) == Ok(x)
  {
    var o := EncodeTemplateFunction(x).fields;
    FieldRoundTrip(o, "name", EncodeString, DecodeString, "", x.name);
    OptionalRoundTrip(o, "description", EncodeString, DecodeString, x.description);
    if x.aliases.Some? {
      SeqRoundTrip(EncodeString, DecodeString, x.aliases.value);
    }
    OptionalRoundTrip(o, "aliases", EncodeAliases, DecodeAliases, x.aliases);
    F.FormInputsRoundTrip(x.args);
    FieldRoundTrip(o, "args", F.EncodeFormInputs, F.DecodeFormInputs, [], x.args);
  }

  datatype GetTemplateFunctionsResponse = GetTemplateFunctionsResponse(functions: seq<TemplateFunction>, pluginRefId: string)

  function EncodeGetTemplateFunctionsResponse(x: GetTemplateFunctionsResponse): (r: Fields)
    ensures r.Keys == {"functions", "pluginRefId"}
  {
    map["functions" := EncodeSeq(EncodeTemplateFunction, x.functions), "pluginRefId" := Str(x.pluginRefId)]
  }

  function DecodeGetTemplateFunctionsResponse(o: Fields): (r: Decoded<GetTemplateFunctionsResponse>)
    ensures o == map[] ==> r == Ok(GetTemplateFunctionsResponse([], ""))
  {
    var functions :- SeqField(o, "functions", DecodeTemplateFunction);
    var pluginRefId :- Field(o, "pluginRefId", DecodeString, "");
    Ok(GetTemplateFunctionsResponse(functions, pluginRefId))
  }

  lemma GetTemplateFunctionsResponseRoundTrip(x: GetTemplateFunctionsResponse)
    ensures DecodeGetTemplateFunctionsResponse(EncodeGetTemplateFunctionsResponse(x)) == Ok(x)
  {
    var o := EncodeGetTemplateFunctionsResponse(x);
    forall i | 0 <= i < |x.functions|
      ensures DecodeTemplateFunction(EncodeTemplateFunction(x.functions[i])) == Ok(x.functions[i])
    {
      TemplateFunctionRoundTrip(x.functions[i]);
    }
    SeqFieldRoundTrip(o, "functions", EncodeTemplateFunction, DecodeTemplateFunction, x.functions);
    FieldRoundTrip(o, "pluginRefId", EncodeString, DecodeString, "", x.pluginRefId);
  }

  datatype CallTemplateFunctionArgs = CallTemplateFunctionArgs(purpose: E.RenderPurpose, values: map<string, string>)

  function EncodeCallTemplateFunctionArgs(x: CallTemplateFunctionArgs): (r: Json)
    ensures r.Object? && r.fields.Keys == {"purpose", "values"}
  {
    Object(map["purpose" := E.EncodeRenderPurpose(x.purpose), "values" := EncodeStringMap(x.values)])
  }

  function DecodeCallTemplateFunctionArgs(j: Json): (r: Decoded<CallTemplateFunctionArgs>)
    ensures j == Object(map[]) ==> r == Ok(CallTemplateFunctionArgs(E.DefaultRenderPurpose, map[]))
  {
    var o :- DecodeFields(j);
    var purpose :- Field(o, "purpose", E.DecodeRenderPurpose, E.DefaultRenderPurpose);
    var values :- Field(o, "values", DecodeStringMap, map[]);
    Ok(CallTemplateFunctionArgs(purpose, values))
  }

  lemma CallTemplateFunctionArgsRoundTrip(x: CallTemplateFunctionArgs)
    ensures DecodeCallTemplateFunctionArgs(EncodeCallTemplateFunctionArgs(x)) == Ok(x)
  {
    E.RenderPurposeRoundTrip(x.purpose);
    StringMapRoundTrip(x.values);
  }

  datatype CallTemplateFunctionRequest = CallTemplateFunctionRequest(name: string, args: CallTemplateFunctionArgs)

  function EncodeCallTemplateFunctionRequest(x: CallTemplateFunctionRequest): (r: Fields)
    ensures r.Keys == {"name", "args"}
  {
    map["name" := Str(x.name), "args" := EncodeCallTemplateFunctionArgs(x.args)]
  }

  function DecodeCallTemplateFunctionRequest(o: Fields): (r: Decoded<CallTemplateFunctionRequest>)
    ensures o == map[] ==> r == Ok(CallTemplateFunctionRequest("", CallTemplateFunctionArgs(E.DefaultRenderPurpose, map[])))
  {
    var name :- Field(o, "name", DecodeString, "");
    var args :- Field(o, "args", DecodeCallTemplateFunctionArgs, CallTemplateFunctionArgs(E.DefaultRenderPurpose, map[]));
    Ok(CallTemplateFunctionRequest(name, args))
  }

  lemma CallTemplateFunctionRequestRoundTrip(x: CallTemplateFunctionRequest)
    ensures DecodeCallTemplateFunctionRequest(EncodeCallTemplateFunctionRequest(x)) == Ok(x)
  {
    CallTemplateFunctionArgsRoundTrip(x.args);
  }

  // ---- HTTP request actions ----

  datatype HttpRequestAction = HttpRequestAction(key: string, labelText: string, icon: Option<E.Icon>)

  function EncodeHttpRequestAction(x: HttpRequestAction): (r: Json)
    ensures r.Object? && r.fields.Keys == {"key", "label", "icon"}
  {
    Object(map["key" := Str(x.key), "label" := Str(x.labelText), "icon" := EncodeOption(E.EncodeIcon, x.icon)])
  }

  function DecodeHttpRequestAction(j: Json): (r: Decoded<HttpRequestAction>)
    ensures j == Object(map[]) ==> r == Ok(HttpRequestAction("", "", None))
  {
    var o :- DecodeFields(j);
    var key :- Field(o, "key", DecodeString, "");
    var labelText :- Field(o, "label", DecodeString, "");
    var icon :- Optional(o, "icon", E.DecodeIcon);
    Ok(HttpRequestAction(key, labelText, icon))
  }

  predicate CanonicalAction(x: HttpRequestAction) {
    x.icon.Some? ==> E.CanonicalIcon(x.icon.value)
  }

  lemma HttpRequestActionRoundTrip(x: HttpRequestAction)
    requires CanonicalAction(x)
    ensures DecodeHttpRequestAction(EncodeHttpRequestAction(x)) == Ok(x)
  {
    var o := EncodeHttpRequestAction(x).fields;
    FieldRoundTrip(o, "key", EncodeString, DecodeString, "", x.key);
    FieldRoundTrip(o, "label", EncodeString, DecodeString, "", x.labelText);
    if x.icon.Some? {
      E.IconRoundTrip(x.icon.value);
    }
    OptionalRoundTrip(o, "icon", E.EncodeIcon, E.DecodeIcon, x.icon);
  }

  datatype GetHttpRequestActionsResponse = GetHttpRequestActionsResponse(actions: seq<HttpRequestAction>, pluginRefId: string)

  function EncodeGetHttpRequestActionsResponse(x: GetHttpRequestActionsResponse): (r: Fields)
    ensures r.Keys == {"actions", "pluginRefId"}
  {
    map["actions" := EncodeSeq(EncodeHttpRequestAction, x.actions), "pluginRefId" := Str(x.pluginRefId)]
  }

  function DecodeGetHttpRequestActionsResponse(o: Fields): (r: Decoded<GetHttpRequestActionsResponse>)
    ensures o == map[] ==> r == Ok(GetHttpRequestActionsResponse([], ""))
  {
    var actions :- SeqField(o, "actions", DecodeHttpRequestAction);
    var pluginRefId :- Field(o, "pluginRefId", DecodeString, "");
    Ok(GetHttpRequestActionsResponse(actions, pluginRefId))
  }

  lemma GetHttpRequestActionsResponseRoundTrip(x: GetHttpRequestActionsResponse)
    requires forall i :: 0 <= i < |x.actions| ==> CanonicalAction(x.actions[i])
    ensures DecodeGetHttpRequestActionsResponse(EncodeGetHttpRequestActionsResponse(x)) == Ok(x)
  {
    var o := EncodeGetHttpRequestActionsResponse(x);
    forall i | 0 <= i < |x.actions|
      ensures DecodeHttpRequestAction(EncodeHttpRequestAction(x.actions[i])) == Ok(x.actions[i])
    {
      HttpRequestActionRoundTrip(x.actions[i]);
    }
    SeqFieldRoundTrip(o, "actions", EncodeHttpRequestAction, DecodeHttpRequestAction, x.actions);
    FieldRoundTrip(o, "pluginRefId", EncodeString, DecodeString, "", x.pluginRefId);
  }

  function EncodeHttpRequestBodyJson<HttpRequest>(c: Codec<HttpRequest>, x: HttpRequestBody<HttpRequest>): Json {
    Object(EncodeHttpRequestBody(c, x))
  }

  function DecodeHttpRequestBodyJson<HttpRequest>(c: Codec<HttpRequest>, j: Json): Decoded<HttpRequestBody<HttpRequest>> {
    var o :- DecodeFields(j);
    DecodeHttpRequestBody(c, o)
  }

  datatype CallHttpRequestActionRequest<HttpRequest> =
    CallHttpRequestActionRequest(key: string, pluginRefId: string, args: HttpRequestBody<HttpRequest>)

  function EncodeCallHttpRequestActionRequest<HttpRequest>(c: Codec<HttpRequest>, x: CallHttpRequestActionRequest<HttpRequest>): (r: Fields)
    ensures r.Keys == {"key", "pluginRefId", "args"}
  {
    map["key" := Str(x.key), "pluginRefId" := Str(x.pluginRefId), "args" := EncodeHttpRequestBodyJson(c, x.args)]
  }

  function DecodeCallHttpRequestActionRequest<HttpRequest>(c: Codec<HttpRequest>, o: Fields): (r: Decoded<CallHttpRequestActionRequest<HttpRequest>>)
    ensures o == map[] ==> r == Ok(CallHttpRequestActionRequest("", "", HttpRequestBody(c.default)))
  {
    var key :- Field(o, "key", DecodeString, "");
    var pluginRefId :- Field(o, "pluginRefId", DecodeString, "");
    var args :- Field(o, "args", j => DecodeHttpRequestBodyJson(c, j), HttpRequestBody(c.default));
    Ok(CallHttpRequestActionRequest(key, pluginRefId, args))
  }

  lemma CallHttpRequestActionRequestRoundTrip<HttpRequest(!new)>(c: Codec<HttpRequest>, x: CallHttpRequestActionRequest<HttpRequest>)
    requires Lawful(c)
    ensures DecodeCallHttpRequestActionRequest(c, EncodeCallHttpRequestActionRequest(c, x)) == Ok(x)
  {
    var o := EncodeCallHttpRequestActionRequest(c, x);
    FieldRoundTrip(o, "key", EncodeString, DecodeString, "", x.key);
    FieldRoundTrip(o, "pluginRefId", EncodeString, DecodeString, "", x.pluginRefId);
    HttpRequestBodyRoundTrip(c, x.args);
    assert o["args"] == EncodeHttpRequestBodyJson(c, x.args);
  }
}
