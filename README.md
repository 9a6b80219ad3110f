# Yaak plugin events and form inputs, in Dafny

This project models four parts of the Yaak API client and proves properties
of them.

- **The plugin event schema** (`src-tauri/yaak-plugins/src/events.rs`). This
  is the JSON wire format spoken between the app and its plugins:
  - the `InternalEvent` envelope and its `WindowContext`;
  - the 38-variant `InternalEventPayload` union, internally tagged by
    `type` in snake_case;
  - every payload body struct, each under `#[serde(default)]`;
  - the `Color`, `Icon`, `EditorLanguage` and `RenderPurpose` enums;
  - the flattened `FormInput` schema that plugins use to describe their
    arguments.

  JSON is an abstract datatype (`SerdeJson.Json`). Every struct has a writer
  and a reader that follow serde's rules for these attributes. The main
  results are round trips: `Events.EventRoundTrip`,
  `Payloads.PayloadRoundTrip` and `FormInputs.FormInputRoundTrip`. The
  variant tags are derived from the Rust variant names. `Catalog` proves
  they are the snake_case of those names, pairwise distinct and read back
  exactly. It also states which requests have a matching response.
- **The text input component** (`src-web/components/core/Input.tsx`). Its
  validity rule, its Enter-to-submit rule and its password editor type are
  functions. Its three state cells (`obscured`, `currentValue`, `focused`)
  are fields of the class `InputFields.InputField`, and its event handlers
  are methods of that class.
- **The form-urlencoded body editor**
  (`src-web/components/FormUrlencodedEditor.tsx`). It normalises the stored
  `form` entries into editor pairs, using JavaScript's truthiness and `||`
  rules, and writes the pairs back. The round trip loses only each pair's
  `id`.
- **The cache update after a response is deleted**
  (`src-web/hooks/useDeleteResponse.ts`). The filter is a function with
  proved order, count and length properties. The query cache is a class
  holding a map of response lists, keyed by request id. Its update changes
  that one key only.

The entity types of the model crate (`HttpRequest`, `HttpResponse`,
`Workspace`, `Environment`, `Folder` and `GrpcRequest`) are not defined by
these files. They are type parameters, each carrying a codec (writer,
reader and default). Round trips require each codec to round-trip itself
(`PayloadBodies.LawfulModels`).

## Model

| member | source | states |
|---|---|---|
| SerdeJson.DecodeString | src-tauri/yaak-plugins/src/events.rs:109 | a value reads as a string exactly when it is a JSON string, and the string written back is that value |
| SerdeJson.DecodeBool | src-tauri/yaak-plugins/src/events.rs:110 | a value reads as a bool exactly when it is a JSON boolean |
| SerdeJson.DecodeI32 | src-tauri/yaak-plugins/src/events.rs:613 | a number reads as an `i32` exactly when it lies in the signed 32-bit range |
| SerdeJson.DecodeFields | src-tauri/yaak-plugins/src/events.rs:318 | a value reads as a JSON object map exactly when it is an object |
| SerdeJson.DecodeOption | src-tauri/yaak-plugins/src/events.rs:14 | null reads as absent; any other value reads as present exactly when the inner reader accepts it, and then as `Some` of what the inner reader gives |
| SerdeJson.OptionRoundTrip | src-tauri/yaak-plugins/src/events.rs:14 | an `Option` written (None as null) reads back as itself when the inner value round-trips |
| SerdeJson.DecodeItems | src-tauri/yaak-plugins/src/events.rs:119 | an array's items read exactly when every item reads, in order, item by item |
| SerdeJson.ItemsRoundTrip | src-tauri/yaak-plugins/src/events.rs:119 | a written list reads back as itself, by induction on the list |
| SerdeJson.SeqRoundTrip | src-tauri/yaak-plugins/src/events.rs:119 | a `Vec` written as a JSON array reads back as itself |
| SerdeJson.DecodeStringMap | src-tauri/yaak-plugins/src/events.rs:537 | an object reads as a string map exactly when every value is a string; the map then has the object's keys, each mapped to that key's string |
| SerdeJson.StringMapRoundTrip | src-tauri/yaak-plugins/src/events.rs:537 | a `HashMap<String, String>` written as an object reads back as itself |
| SerdeJson.Field | src-tauri/yaak-plugins/src/events.rs:106 | under `#[serde(default)]` a missing key reads as the field's default and a present key is read by the field's reader |
| SerdeJson.Required | src-tauri/yaak-plugins/src/events.rs:11-17 | without a default, a missing key is a `MissingField` error naming that key |
| SerdeJson.Optional | src-tauri/yaak-plugins/src/events.rs:14 | a missing key and an explicit null both read an `Option` field as absent; a present key is read as an `Option` of its value |
| SerdeJson.SeqField | src-tauri/yaak-plugins/src/events.rs:119 | a missing list field under `#[serde(default)]` reads as the empty list; a present key is read as a list from its value |
| SerdeJson.OptionalRoundTrip | src-tauri/yaak-plugins/src/events.rs:14 | an `Option` field written under its key reads back as itself |
| SerdeJson.FieldRoundTrip | src-tauri/yaak-plugins/src/events.rs:106 | a defaulted field written under its key reads back as itself |
| SerdeJson.SeqFieldRoundTrip | src-tauri/yaak-plugins/src/events.rs:119 | a list field written under its key reads back as itself |
| PluginEnums.DecodeColor | src-tauri/yaak-plugins/src/events.rs:262-274 | a colour is read only from its own snake_case name |
| PluginEnums.ColorRoundTrip | src-tauri/yaak-plugins/src/events.rs:262-274 | every colour reads back as itself |
| PluginEnums.EncodeColor | src-tauri/yaak-plugins/src/events.rs:262-274 | a colour is written as a snake_case name string |
| PluginEnums.ColorDefault | src-tauri/yaak-plugins/src/events.rs:276-280 | the default colour is `Default`, written and read as "default" |
| PluginEnums.DecodeIcon | src-tauri/yaak-plugins/src/events.rs:283-294 | any string reads as an icon; it is the catch-all `_Unknown` exactly when it is none of the four names, and writing the result gives the string back |
| PluginEnums.IconRoundTrip | src-tauri/yaak-plugins/src/events.rs:283-294 | an icon in canonical form reads back as itself |
| PluginEnums.DecodedIconIsCanonical | src-tauri/yaak-plugins/src/events.rs:283-294 | every icon that is read is in canonical form |
| PluginEnums.UnknownIconShadowed | src-tauri/yaak-plugins/src/events.rs:291-293 | `_Unknown("copy")` is written as `Copy` is, and reads back as `Copy` |
| PluginEnums.EncodeIcon | src-tauri/yaak-plugins/src/events.rs:283-294 | a named icon is written as one of the four snake_case names; `_Unknown` is written as the bare string it holds |
| PluginEnums.DecodeEditorLanguage | src-tauri/yaak-plugins/src/events.rs:408-418 | a language is read only from its own snake_case name |
| PluginEnums.EditorLanguageRoundTrip | src-tauri/yaak-plugins/src/events.rs:408-418 | every editor language reads back as itself |
| PluginEnums.EncodeEditorLanguage | src-tauri/yaak-plugins/src/events.rs:408-418 | an editor language is written as a snake_case name string |
| PluginEnums.EditorLanguageDefault | src-tauri/yaak-plugins/src/events.rs:420-424 | the default editor language is `Text`, written and read as "text" |
| PluginEnums.DecodeRenderPurpose | src-tauri/yaak-plugins/src/events.rs:541-546 | a render purpose is read only from its own snake_case name |
| PluginEnums.RenderPurposeRoundTrip | src-tauri/yaak-plugins/src/events.rs:541-546 | both render purposes read back as themselves |
| PluginEnums.EncodeRenderPurpose | src-tauri/yaak-plugins/src/events.rs:541-546 | a render purpose is written as a snake_case name string |
| PluginEnums.RenderPurposeDefault | src-tauri/yaak-plugins/src/events.rs:548-552 | the default render purpose is `Preview`, written and read as "preview" |
| FormInputs.EncodeBase | src-tauri/yaak-plugins/src/events.rs:369-389 | the base fields are written under exactly their five camelCase keys |
| FormInputs.BaseRoundTrip | src-tauri/yaak-plugins/src/events.rs:369-389 | base fields read back from any object holding their written keys, whatever else it holds |
| FormInputs.DecodeBase | src-tauri/yaak-plugins/src/events.rs:369-389 | an object without base keys reads as the default base (`#[serde(default)]`); a `name` that is not a string is an error, and a read `name` is the string found |
| FormInputs.FileFilterRoundTrip | src-tauri/yaak-plugins/src/events.rs:482-488 | a file filter reads back as itself |
| FormInputs.EncodeFileFilter | src-tauri/yaak-plugins/src/events.rs:482-488 | a file filter is written under exactly `name` and `extensions` |
| FormInputs.DecodeFileFilter | src-tauri/yaak-plugins/src/events.rs:482-488 | only an object reads as a file filter; an empty one reads as an empty name and no extensions (`#[serde(default)]`) |
| FormInputs.EncodeSelectOption | src-tauri/yaak-plugins/src/events.rs:510-515 | a select option is written under exactly `name` and `value` |
| FormInputs.DecodeSelectOption | src-tauri/yaak-plugins/src/events.rs:510-515 | only an object reads as a select option; an empty one reads as empty name and value (`#[serde(default)]`) |
| FormInputs.SelectOptionRoundTrip | src-tauri/yaak-plugins/src/events.rs:510-515 | a select option reads back as itself |
| FormInputs.FileFiltersRoundTrip | src-tauri/yaak-plugins/src/events.rs:475-478 | a list of file filters reads back as itself |
| FormInputs.InputTypeTagRoundTrip | src-tauri/yaak-plugins/src/events.rs:357-366 | each form-input variant's tag names that variant |
| FormInputs.DecodeFormInput | src-tauri/yaak-plugins/src/events.rs:357-366 | a decoded form input carries the tag of its variant; an unknown tag is an `UnknownVariant` error |
| FormInputs.EncodeFormInput | src-tauri/yaak-plugins/src/events.rs:356-366 | a form input is written as one object carrying every base key and the "type" tag of its variant |
| FormInputs.DecodeVariant | src-tauri/yaak-plugins/src/events.rs:357-366 | the reader a tag selects yields that variant, with the base read from the same object |
| FormInputs.FormInputLayout | src-tauri/yaak-plugins/src/events.rs:392-405 | a written form input holds the flattened base keys, its own keys and the tag, and the three key sets do not overlap |
| FormInputs.FormInputRoundTrip | src-tauri/yaak-plugins/src/events.rs:357-366 | every form input, of every variant, reads back as itself |
| FormInputs.FormInputsRoundTrip | src-tauri/yaak-plugins/src/events.rs:353 | a list of form inputs reads back as itself |
| PayloadBodies.EncodeBootRequest | src-tauri/yaak-plugins/src/events.rs:106-111 | written under exactly `dir` and `watch` |
| PayloadBodies.DecodeBootRequest | src-tauri/yaak-plugins/src/events.rs:106-111 | an empty object reads as empty string and false (`#[serde(default)]`) |
| PayloadBodies.BootRequestRoundTrip | src-tauri/yaak-plugins/src/events.rs:106-111 | every value reads back as itself |
| PayloadBodies.EncodeBootResponse | src-tauri/yaak-plugins/src/events.rs:114-120 | written under exactly `name`, `version` and `capabilities` |
| PayloadBodies.DecodeBootResponse | src-tauri/yaak-plugins/src/events.rs:114-120 | an empty object reads as empty strings and an empty list (`#[serde(default)]`) |
| PayloadBodies.BootResponseRoundTrip | src-tauri/yaak-plugins/src/events.rs:114-120 | every value reads back as itself |
| PayloadBodies.EncodeContent | src-tauri/yaak-plugins/src/events.rs:123-127 | written under exactly the one `content` key shared by `ImportRequest`, `FilterResponse` and `ExportHttpRequestResponse` |
| PayloadBodies.DecodeContent | src-tauri/yaak-plugins/src/events.rs:123-127 | an empty object reads as the empty string (`#[serde(default)]`) |
| PayloadBodies.ContentRoundTrip | src-tauri/yaak-plugins/src/events.rs:123-127 | every value reads back as itself |
| PayloadBodies.EncodeFilterRequest | src-tauri/yaak-plugins/src/events.rs:137-142 | written under exactly `content` and `filter` |
| PayloadBodies.DecodeFilterRequest | src-tauri/yaak-plugins/src/events.rs:137-142 | an empty object reads as empty strings (`#[serde(default)]`) |
| PayloadBodies.FilterRequestRoundTrip | src-tauri/yaak-plugins/src/events.rs:137-142 | every value reads back as itself |
| PayloadBodies.EncodeCopyTextRequest | src-tauri/yaak-plugins/src/events.rs:180-184 | written under exactly `text` |
| PayloadBodies.DecodeCopyTextRequest | src-tauri/yaak-plugins/src/events.rs:180-184 | an empty object reads as the empty string (`#[serde(default)]`) |
| PayloadBodies.CopyTextRequestRoundTrip | src-tauri/yaak-plugins/src/events.rs:180-184 | every value reads back as itself |
| PayloadBodies.EncodeGetHttpRequestByIdRequest | src-tauri/yaak-plugins/src/events.rs:594-598 | written under exactly `id` |
| PayloadBodies.DecodeGetHttpRequestByIdRequest | src-tauri/yaak-plugins/src/events.rs:594-598 | an empty object reads as the empty string (`#[serde(default)]`) |
| PayloadBodies.GetHttpRequestByIdRequestRoundTrip | src-tauri/yaak-plugins/src/events.rs:594-598 | every value reads back as itself |
| PayloadBodies.EncodeOptionalValue | src-tauri/yaak-plugins/src/events.rs:255-259 | written under exactly the one `value` key of `PromptTextResponse` and `CallTemplateFunctionResponse` |
| PayloadBodies.DecodeOptionalValue | src-tauri/yaak-plugins/src/events.rs:255-259 | an empty object reads as absent (`#[serde(default)]`) |
| PayloadBodies.OptionalValueRoundTrip | src-tauri/yaak-plugins/src/events.rs:255-259 | every value reads back as itself |
| PayloadBodies.DecodeImportResources | src-tauri/yaak-plugins/src/events.rs:624-632 | an empty object reads as five empty lists (`#[serde(default)]`) |
| PayloadBodies.EncodeImportResources | src-tauri/yaak-plugins/src/events.rs:624-632 | written under exactly `workspaces`, `environments`, `folders`, `httpRequests` and `grpcRequests` |
| PayloadBodies.ImportResourcesRoundTrip | src-tauri/yaak-plugins/src/events.rs:624-632 | every value reads back as itself |
| PayloadBodies.EncodeImportResponse | src-tauri/yaak-plugins/src/events.rs:130-134 | written under exactly `resources` |
| PayloadBodies.DecodeImportResponse | src-tauri/yaak-plugins/src/events.rs:130-134 | an empty object reads as empty resources (`#[serde(default)]`) |
| PayloadBodies.ImportResponseRoundTrip | src-tauri/yaak-plugins/src/events.rs:130-134 | every value reads back as itself |
| PayloadBodies.EncodeHttpRequestBody | src-tauri/yaak-plugins/src/events.rs:152-156 | written under exactly the one `httpRequest` key of `ExportHttpRequestRequest`, `SendHttpRequestRequest`, `RenderHttpRequestResponse` and `CallHttpRequestActionArgs` |
| PayloadBodies.DecodeHttpRequestBody | src-tauri/yaak-plugins/src/events.rs:152-156 | an empty object reads as the entity's default (`#[serde(default)]`) |
| PayloadBodies.HttpRequestBodyRoundTrip | src-tauri/yaak-plugins/src/events.rs:152-156 | every value reads back as itself |
| PayloadBodies.EncodeSendHttpRequestResponse | src-tauri/yaak-plugins/src/events.rs:173-177 | written under exactly `httpResponse` |
| PayloadBodies.DecodeSendHttpRequestResponse | src-tauri/yaak-plugins/src/events.rs:173-177 | an empty object reads as the entity's default (`#[serde(default)]`) |
| PayloadBodies.SendHttpRequestResponseRoundTrip | src-tauri/yaak-plugins/src/events.rs:173-177 | every value reads back as itself |
| PayloadBodies.EncodeRenderHttpRequestRequest | src-tauri/yaak-plugins/src/events.rs:187-192 | written under exactly `httpRequest` and `purpose` |
| PayloadBodies.DecodeRenderHttpRequestRequest | src-tauri/yaak-plugins/src/events.rs:187-192 | an empty object reads as the entity's default and `Preview` (`#[serde(default)]`) |
| PayloadBodies.RenderHttpRequestRequestRoundTrip | src-tauri/yaak-plugins/src/events.rs:187-192 | every value reads back as itself |
| PayloadBodies.EncodeGetHttpRequestByIdResponse | src-tauri/yaak-plugins/src/events.rs:601-605 | written under exactly `httpRequest` |
| PayloadBodies.DecodeGetHttpRequestByIdResponse | src-tauri/yaak-plugins/src/events.rs:601-605 | an empty object reads as absent (`#[serde(default)]`) |
| PayloadBodies.GetHttpRequestByIdResponseRoundTrip | src-tauri/yaak-plugins/src/events.rs:601-605 | every value reads back as itself |
| PayloadBodies.EncodeFindHttpResponsesRequest | src-tauri/yaak-plugins/src/events.rs:608-614 | written under exactly `requestId` and `limit` |
| PayloadBodies.DecodeFindHttpResponsesRequest | src-tauri/yaak-plugins/src/events.rs:608-614 | an empty object reads as the empty string and no limit; a `limit` outside the `i32` range is an error (`#[serde(default)]`) |
| PayloadBodies.FindHttpResponsesRequestRoundTrip | src-tauri/yaak-plugins/src/events.rs:608-614 | every value reads back as itself |
| PayloadBodies.EncodeFindHttpResponsesResponse | src-tauri/yaak-plugins/src/events.rs:617-621 | written under exactly `httpResponses` |
| PayloadBodies.DecodeFindHttpResponsesResponse | src-tauri/yaak-plugins/src/events.rs:617-621 | an empty object reads as the empty list (`#[serde(default)]`) |
| PayloadBodies.FindHttpResponsesResponseRoundTrip | src-tauri/yaak-plugins/src/events.rs:617-621 | every value reads back as itself |
| PayloadBodies.EncodeTemplateRenderRequest | src-tauri/yaak-plugins/src/events.rs:202-207 | written under exactly `data` and `purpose` |
| PayloadBodies.DecodeTemplateRenderRequest | src-tauri/yaak-plugins/src/events.rs:202-207 | an empty object reads as JSON null and `Preview` (`#[serde(default)]`) |
| PayloadBodies.TemplateRenderRequestRoundTrip | src-tauri/yaak-plugins/src/events.rs:202-207 | every value reads back as itself |
| PayloadBodies.EncodeTemplateRenderResponse | src-tauri/yaak-plugins/src/events.rs:210-214 | written under exactly `data` |
| PayloadBodies.DecodeTemplateRenderResponse | src-tauri/yaak-plugins/src/events.rs:210-214 | an empty object reads as JSON null (`#[serde(default)]`) |
| PayloadBodies.TemplateRenderResponseRoundTrip | src-tauri/yaak-plugins/src/events.rs:210-214 | every value reads back as itself |
| PayloadBodies.EncodeShowToastRequest | src-tauri/yaak-plugins/src/events.rs:217-225 | written under exactly `message`, `color` and `icon` |
| PayloadBodies.DecodeShowToastRequest | src-tauri/yaak-plugins/src/events.rs:217-225 | an empty object reads as the empty string and no colour or icon (`#[serde(default)]`) |
| PayloadBodies.ShowToastRequestRoundTrip | src-tauri/yaak-plugins/src/events.rs:217-225 | every value reads back as itself when its icon is canonical |
| PayloadBodies.EncodePromptTextRequest | src-tauri/yaak-plugins/src/events.rs:228-252 | written under exactly its nine camelCase keys |
| PayloadBodies.DecodePromptTextRequest | src-tauri/yaak-plugins/src/events.rs:228-252 | an empty object reads as empty strings and absent options (`#[serde(default)]`) |
| PayloadBodies.PromptTextRequestRoundTrip | src-tauri/yaak-plugins/src/events.rs:228-252 | every value reads back as itself |
| PayloadBodies.EncodeGetHttpAuthenticationResponse | src-tauri/yaak-plugins/src/events.rs:297-304 | written under exactly `name`, `label`, `shortLabel` and `config` |
| PayloadBodies.DecodeGetHttpAuthenticationResponse | src-tauri/yaak-plugins/src/events.rs:297-304 | an empty object reads as empty strings and no config inputs (`#[serde(default)]`) |
| PayloadBodies.GetHttpAuthenticationResponseRoundTrip | src-tauri/yaak-plugins/src/events.rs:297-304 | every value reads back as itself |
| PayloadBodies.DecodeHttpHeader | src-tauri/yaak-plugins/src/events.rs:307-312 | an empty object reads as empty name and value (`#[serde(default)]`) |
| PayloadBodies.EncodeHttpHeader | src-tauri/yaak-plugins/src/events.rs:307-312 | written under exactly `name` and `value` |
| PayloadBodies.HttpHeaderRoundTrip | src-tauri/yaak-plugins/src/events.rs:307-312 | every value reads back as itself |
| PayloadBodies.EncodeCallHttpAuthenticationRequest | src-tauri/yaak-plugins/src/events.rs:315-322 | written under exactly `config`, `method`, `url` and `headers` |
| PayloadBodies.DecodeCallHttpAuthenticationRequest | src-tauri/yaak-plugins/src/events.rs:315-322 | an empty object reads as an empty config, empty strings and no headers (`#[serde(default)]`) |
| PayloadBodies.CallHttpAuthenticationRequestRoundTrip | src-tauri/yaak-plugins/src/events.rs:315-322 | every value reads back as itself |
| PayloadBodies.EncodeCallHttpAuthenticationResponse | src-tauri/yaak-plugins/src/events.rs:325-331 | written under exactly `setHeaders` |
| PayloadBodies.DecodeCallHttpAuthenticationResponse | src-tauri/yaak-plugins/src/events.rs:325-331 | an empty object reads as no headers (`#[serde(default)]`) |
| PayloadBodies.CallHttpAuthenticationResponseRoundTrip | src-tauri/yaak-plugins/src/events.rs:325-331 | every value reads back as itself |
| PayloadBodies.DecodeTemplateFunction | src-tauri/yaak-plugins/src/events.rs:342-354 | an empty object reads as an empty name, no description or aliases and no args (`#[serde(default)]`) |
| PayloadBodies.EncodeTemplateFunction | src-tauri/yaak-plugins/src/events.rs:342-354 | written under exactly `name`, `description`, `aliases` and `args` |
| PayloadBodies.TemplateFunctionRoundTrip | src-tauri/yaak-plugins/src/events.rs:342-354 | every value reads back as itself |
| PayloadBodies.EncodeGetTemplateFunctionsResponse | src-tauri/yaak-plugins/src/events.rs:334-339 | written under exactly `functions` and `pluginRefId` |
| PayloadBodies.DecodeGetTemplateFunctionsResponse | src-tauri/yaak-plugins/src/events.rs:334-339 | an empty object reads as no functions and an empty plugin id (`#[serde(default)]`) |
| PayloadBodies.GetTemplateFunctionsResponseRoundTrip | src-tauri/yaak-plugins/src/events.rs:334-339 | every value reads back as itself |
| PayloadBodies.DecodeCallTemplateFunctionArgs | src-tauri/yaak-plugins/src/events.rs:533-538 | an empty object reads as `Preview` and an empty map (`#[serde(default)]`) |
| PayloadBodies.EncodeCallTemplateFunctionArgs | src-tauri/yaak-plugins/src/events.rs:533-538 | written under exactly `purpose` and `values` |
| PayloadBodies.CallTemplateFunctionArgsRoundTrip | src-tauri/yaak-plugins/src/events.rs:533-538 | every value reads back as itself |
| PayloadBodies.EncodeCallTemplateFunctionRequest | src-tauri/yaak-plugins/src/events.rs:518-523 | written under exactly `name` and `args` |
| PayloadBodies.DecodeCallTemplateFunctionRequest | src-tauri/yaak-plugins/src/events.rs:518-523 | an empty object reads as an empty name and default args (`#[serde(default)]`) |
| PayloadBodies.CallTemplateFunctionRequestRoundTrip | src-tauri/yaak-plugins/src/events.rs:518-523 | every value reads back as itself |
| PayloadBodies.DecodeHttpRequestAction | src-tauri/yaak-plugins/src/events.rs:568-575 | an empty object reads as an empty key and label and no icon (`#[serde(default)]`) |
| PayloadBodies.EncodeHttpRequestAction | src-tauri/yaak-plugins/src/events.rs:568-575 | written under exactly `key`, `label` and `icon` |
| PayloadBodies.HttpRequestActionRoundTrip | src-tauri/yaak-plugins/src/events.rs:568-575 | every value reads back as itself when its icon is canonical |
| PayloadBodies.EncodeGetHttpRequestActionsResponse | src-tauri/yaak-plugins/src/events.rs:560-565 | written under exactly `actions` and `pluginRefId` |
| PayloadBodies.DecodeGetHttpRequestActionsResponse | src-tauri/yaak-plugins/src/events.rs:560-565 | an empty object reads as no actions and an empty plugin id (`#[serde(default)]`) |
| PayloadBodies.GetHttpRequestActionsResponseRoundTrip | src-tauri/yaak-plugins/src/events.rs:560-565 | every value reads back as itself when its icon is canonical |
| PayloadBodies.EncodeCallHttpRequestActionRequest | src-tauri/yaak-plugins/src/events.rs:578-591 | written under exactly `key`, `pluginRefId` and `args` |
| PayloadBodies.DecodeCallHttpRequestActionRequest | src-tauri/yaak-plugins/src/events.rs:578-591 | an empty object reads as empty strings and args holding the default request (`#[serde(default)]`) |
| PayloadBodies.CallHttpRequestActionRequestRoundTrip | src-tauri/yaak-plugins/src/events.rs:578-591 | every value reads back as itself |
| PayloadBodies.DecodeEmptyPayload | src-tauri/yaak-plugins/src/events.rs:100-103 | any object, whatever keys it holds, reads as the empty payload |
| PayloadBodies.EncodeEmptyPayload | src-tauri/yaak-plugins/src/events.rs:100-103 | the empty payload is written with no keys |
| PayloadBodies.HttpHeadersRoundTrip | src-tauri/yaak-plugins/src/events.rs:321 | a list of headers reads back as itself |
| Naming.JoinSplit | src-tauri/yaak-plugins/src/events.rs:36 | joining the `_`-separated pieces of a tag gives the tag back |
| Naming.SplitJoin | src-tauri/yaak-plugins/src/events.rs:36 | splitting a join of lower-case words gives the words back |
| Naming.SnakeCaseOfCamel | src-tauri/yaak-plugins/src/events.rs:36 | `rename_all = "snake_case"` turns a CamelCase variant name into its lower-case words joined by `_` |
| Naming.SnakeTailAppend | src-tauri/yaak-plugins/src/events.rs:36 | the snake_case conversion distributes over concatenation |
| Vocabulary.WordOf | src-tauri/yaak-plugins/src/events.rs:38-98 | a spelling is read only as the word it spells |
| Vocabulary.WordsOfSpellings | src-tauri/yaak-plugins/src/events.rs:38-98 | the spellings of a list of words read back as those words |
| Vocabulary.SpellingsAreLowerCase | src-tauri/yaak-plugins/src/events.rs:38-98 | every word of a variant name is spelled in non-empty lower-case ASCII |
| Catalog.RequestOf | src-tauri/yaak-plugins/src/events.rs:38-98 | the request variant of an operation belongs to that operation and ends in `Request` |
| Catalog.ResponseOf | src-tauri/yaak-plugins/src/events.rs:38-98 | the response variant of an operation belongs to that operation and ends in `Response` |
| Catalog.VariantOfTag | src-tauri/yaak-plugins/src/events.rs:38-98 | a tag is read only as the variant whose tag it is |
| Catalog.TagRoundTrip | src-tauri/yaak-plugins/src/events.rs:38-98 | every variant's tag reads back as that variant |
| Catalog.VariantOfTagExact | src-tauri/yaak-plugins/src/events.rs:38-98 | a tag reads as a variant exactly when it is that variant's tag |
| Catalog.TagInjective | src-tauri/yaak-plugins/src/events.rs:38-98 | no two variants share a tag |
| Catalog.UnknownTag | src-tauri/yaak-plugins/src/events.rs:38-98 | a string is rejected as a tag exactly when no variant has it as its tag |
| Catalog.TagIsSnakeCase | src-tauri/yaak-plugins/src/events.rs:36-38 | every tag is the snake_case form of the variant's Rust name |
| Catalog.VariantOfRoundTrip | src-tauri/yaak-plugins/src/events.rs:38-98 | each variant is recovered from its operation and last word |
| Catalog.AnsweredExactly | src-tauri/yaak-plugins/src/events.rs:38-98 | every request variant has a response variant of the same operation except `CopyTextRequest`, `ShowToastRequest` and `CallHttpRequestActionRequest` |
| Payloads.EncodeLifecycleBody | src-tauri/yaak-plugins/src/events.rs:39-46 | a body of this family never writes the `type` key the tag takes |
| Payloads.DecodeLifecycleBody | src-tauri/yaak-plugins/src/events.rs:39-46 | a body read for a variant of this family is of that variant, and a tag-only object always reads |
| Payloads.LifecycleBodyRoundTrip | src-tauri/yaak-plugins/src/events.rs:39-46 | every payload of this family is read back from its written body under its own variant |
| Payloads.EncodeContentBody | src-tauri/yaak-plugins/src/events.rs:48-55 | a body of this family never writes the `type` key the tag takes |
| Payloads.DecodeContentBody | src-tauri/yaak-plugins/src/events.rs:48-55 | a body read for a variant of this family is of that variant, and a tag-only object always reads |
| Payloads.ContentBodyRoundTrip | src-tauri/yaak-plugins/src/events.rs:48-55 | every payload of this family is read back from its written body under its own variant |
| Payloads.EncodeHttpBody | src-tauri/yaak-plugins/src/events.rs:57-79 | a body of this family never writes the `type` key the tag takes |
| Payloads.DecodeHttpBody | src-tauri/yaak-plugins/src/events.rs:57-79 | a body read for a variant of this family is of that variant, and a tag-only object always reads |
| Payloads.HttpBodyRoundTrip | src-tauri/yaak-plugins/src/events.rs:57-79 | every payload of this family is read back from its written body under its own variant |
| Payloads.EncodeLookupBody | src-tauri/yaak-plugins/src/events.rs:89-93 | a body of this family never writes the `type` key the tag takes |
| Payloads.DecodeLookupBody | src-tauri/yaak-plugins/src/events.rs:89-93 | a body read for a variant of this family is of that variant, and a tag-only object always reads |
| Payloads.LookupBodyRoundTrip | src-tauri/yaak-plugins/src/events.rs:89-93 | every payload of this family is read back from its written body under its own variant |
| Payloads.EncodeTemplateBody | src-tauri/yaak-plugins/src/events.rs:66-82 | a body of this family never writes the `type` key the tag takes |
| Payloads.DecodeTemplateBody | src-tauri/yaak-plugins/src/events.rs:66-82 | a body read for a variant of this family is of that variant, and a tag-only object always reads |
| Payloads.TemplateBodyRoundTrip | src-tauri/yaak-plugins/src/events.rs:66-82 | every payload of this family is read back from its written body under its own variant |
| Payloads.EncodeActionBody | src-tauri/yaak-plugins/src/events.rs:61-63 | a body of this family never writes the `type` key the tag takes |
| Payloads.DecodeActionBody | src-tauri/yaak-plugins/src/events.rs:61-63 | a body read for a variant of this family is of that variant, and a tag-only object always reads |
| Payloads.ActionBodyRoundTrip | src-tauri/yaak-plugins/src/events.rs:61-63 | every payload of this family is read back from its written body under its own variant |
| Payloads.EncodeAuthenticationBody | src-tauri/yaak-plugins/src/events.rs:71-74 | a body of this family never writes the `type` key the tag takes |
| Payloads.DecodeAuthenticationBody | src-tauri/yaak-plugins/src/events.rs:71-74 | a body read for a variant of this family is of that variant, and a tag-only object always reads |
| Payloads.AuthenticationBodyRoundTrip | src-tauri/yaak-plugins/src/events.rs:71-74 | every payload of this family is read back from its written body under its own variant |
| Payloads.EncodeUiBody | src-tauri/yaak-plugins/src/events.rs:76-87 | a body of this family never writes the `type` key the tag takes |
| Payloads.DecodeUiBody | src-tauri/yaak-plugins/src/events.rs:76-87 | a body read for a variant of this family is of that variant, and a tag-only object always reads |
| Payloads.UiBodyRoundTrip | src-tauri/yaak-plugins/src/events.rs:76-87 | every payload of this family is read back from its written body under its own variant |
| Payloads.EncodeBody | src-tauri/yaak-plugins/src/events.rs:35-98 | a payload's body never holds the `type` key |
| Payloads.EncodePayload | src-tauri/yaak-plugins/src/events.rs:35-98 | a payload is written as its body's keys plus `type` holding the variant's tag (internal tagging) |
| Payloads.DecodeBody | src-tauri/yaak-plugins/src/events.rs:35-98 | the body is read as the variant the tag named; an empty body always reads |
| Payloads.DecodePayload | src-tauri/yaak-plugins/src/events.rs:35-98 | a read payload's variant is the one the `type` tag names; a string tag naming no variant is an `UnknownVariant` error |
| Payloads.BodyRoundTrip | src-tauri/yaak-plugins/src/events.rs:35-98 | every payload's written body reads back under its variant |
| Payloads.PayloadRoundTrip | src-tauri/yaak-plugins/src/events.rs:35-98 | every payload, of all 38 variants, reads back as itself |
| Payloads.TagOnly | src-tauri/yaak-plugins/src/events.rs:100-103 | an object holding only a tag reads as that tag's variant, since every body field has a default |
| Payloads.UnitVariantsWritten | src-tauri/yaak-plugins/src/events.rs:45-66 | `TerminateRequest`, `TerminateResponse` and `GetTemplateFunctionsRequest` are written as the tag alone |
| Payloads.UnitVariantsRead | src-tauri/yaak-plugins/src/events.rs:45-66 | the three unit variants read from their tag whatever other keys the object holds |
| Events.EncodeWindowContext | src-tauri/yaak-plugins/src/events.rs:19-25 | `none` is written as the tag alone; `label` as the tag plus its `label` string |
| Events.DecodeWindowContext | src-tauri/yaak-plugins/src/events.rs:19-25 | a read window context carries the tag of its variant, a `label` its label, and an unknown tag is an `UnknownVariant` error |
| Events.WindowContextRoundTrip | src-tauri/yaak-plugins/src/events.rs:19-25 | every window context reads back as itself |
| Events.WindowTag | src-tauri/yaak-plugins/src/events.rs:19-25 | the tag is "none" exactly for `None` and "label" exactly for `Label` |
| Events.FromWindow | src-tauri/yaak-plugins/src/events.rs:27-33 | an event from a window carries that window's label |
| Events.EncodeEvent | src-tauri/yaak-plugins/src/events.rs:8-17 | an event is written under exactly the five camelCase keys, with an absent `replyId` as null |
| Events.DecodeEvent | src-tauri/yaak-plugins/src/events.rs:8-17 | a read event had its four required keys; a missing `id` is a `MissingField("id")` error |
| Events.EventRoundTrip | src-tauri/yaak-plugins/src/events.rs:8-17 | every event whose payload is canonical reads back as itself |
| InputFields.ValidateRequire | src-web/components/core/Input.tsx:217-219 | a required value passes exactly when it is non-empty |
| InputFields.IsValid | src-web/components/core/Input.tsx:106-111 | a required empty value is invalid; otherwise a boolean `validate` is the verdict, a function `validate` is asked, and no `validate` accepts |
| InputFields.EditorType | src-web/components/core/Input.tsx:186 | the editor shows a password exactly when the input is a password that is still obscured |
| InputFields.Submits | src-web/components/core/Input.tsx:124-134 | only Enter submits, and Enter submits exactly when the value is valid and the input sits in a form |
| InputFields.InputField.constructor | src-web/components/core/Input.tsx:82-84 | a new input is obscured exactly when it is a password, holds `defaultValue` or "", and is not focused; it records whether the caller passed its own `onKeyDown` |
| InputFields.InputField.ChangeType | src-web/components/core/Input.tsx:82 | a `type` that differs from the previous one resets `obscured` to whether it is a password; the same `type` keeps `obscured`; value and focus are unchanged |
| InputFields.InputField.HandleChange | src-web/components/core/Input.tsx:113-119 | the reported value becomes the current value; nothing else changes |
| InputFields.InputField.HandleFocus | src-web/components/core/Input.tsx:88-92 | focus sets `focused` unless the input is read-only; nothing else changes |
| InputFields.InputField.HandleBlur | src-web/components/core/Input.tsx:94-98 | blur clears `focused`; nothing else changes |
| InputFields.InputField.ToggleObscured | src-web/components/core/Input.tsx:200-208 | the eye button of a password input flips `obscured`; nothing else changes |
| InputFields.InputField.HandleKeyDown | src-web/components/core/Input.tsx:124-134 | a key press submits exactly as `Submits` says for the current validity, unless the caller passed its own `onKeyDown`: the props spread at line 197 comes after `onKeyDown={handleKeyDown}` at line 185, so the caller's handler replaces the submit gate and nothing is submitted |
| InputFields.MountedType | src-web/components/core/Input.tsx:82 | a freshly mounted input shows its own type |
| InputFields.ToggleEffect | src-web/components/core/Input.tsx:186 | toggling changes what a password input shows and never what a text input shows |
| InputFields.EmptyRequiredNeverSubmits | src-web/components/core/Input.tsx:107 | a required input left empty never submits, whatever `validate` says |
| FormUrlencoded.Property | src-web/components/FormUrlencodedEditor.tsx:15-19 | a property of a non-object, or a missing property, is `undefined`; a present property is its value |
| FormUrlencoded.Or | src-web/components/FormUrlencodedEditor.tsx:17-18 | `a || b` is `a` when truthy and `b` otherwise |
| FormUrlencoded.NormalisePair | src-web/components/FormUrlencodedEditor.tsx:15-20 | reading a null or undefined entry throws; any other entry gives `!!enabled`, `name || ''`, `value || ''` and the `id` as it was |
| FormUrlencoded.NormaliseItems | src-web/components/FormUrlencodedEditor.tsx:15-20 | the pairs are produced exactly when no entry throws, one per entry, in order |
| FormUrlencoded.Pairs | src-web/components/FormUrlencodedEditor.tsx:13-22 | a `form` that is not an array gives no pairs; an array is normalised entry by entry |
| FormUrlencoded.StoredPair | src-web/components/FormUrlencodedEditor.tsx:26 | a pair is stored with exactly `enabled`, `name` and `value`, without its `id` |
| FormUrlencoded.StoredPairs | src-web/components/FormUrlencodedEditor.tsx:26 | every pair is stored, in order |
| FormUrlencoded.HandleChange | src-web/components/FormUrlencodedEditor.tsx:24-28 | the change reported is a body holding only `form`, the stored pairs |
| FormUrlencoded.StoredPairRead | src-web/components/FormUrlencodedEditor.tsx:13-28 | a stored pair with string name and value normalises back to itself without its `id` |
| FormUrlencoded.StoredPairsRoundTrip | src-web/components/FormUrlencodedEditor.tsx:13-28 | normalising stored pairs gives back every pair, in order, without its `id` |
| FormUrlencoded.FormRoundTrip | src-web/components/FormUrlencodedEditor.tsx:13-28 | the body the editor reports reads back as the editor's pairs, without their ids |
| FormUrlencoded.NormalisedNames | src-web/components/FormUrlencodedEditor.tsx:17-18 | a normalised name or value is truthy or the empty string |
| DeleteResponse.WithoutResponse | src-web/hooks/useDeleteResponse.ts:14 | the filtered list holds exactly the responses whose id is not the deleted one, and is no longer |
| DeleteResponse.KeepsOrder | src-web/hooks/useDeleteResponse.ts:14 | the remaining responses keep their order |
| DeleteResponse.KeepsCounts | src-web/hooks/useDeleteResponse.ts:14 | every other response stays as many times as it was there; the deleted id is gone |
| DeleteResponse.LengthKeptIffAbsent | src-web/hooks/useDeleteResponse.ts:14 | the list keeps its length exactly when it held no response with the deleted id |
| DeleteResponse.AbsentUnchanged | src-web/hooks/useDeleteResponse.ts:14 | deleting an id not in the list leaves it as it was |
| DeleteResponse.Idempotent | src-web/hooks/useDeleteResponse.ts:14 | deleting the same response twice is deleting it once |
| DeleteResponse.ResponsesCache.constructor | src-web/hooks/useDeleteResponse.ts:7 | the cache starts with the given lists |
| DeleteResponse.ResponsesCache.ListOf | src-web/hooks/useDeleteResponse.ts:13-14 | a request's list that was never fetched reads as empty (`responses ?? []`) |
| DeleteResponse.ResponsesCache.OnDeleteSuccess | src-web/hooks/useDeleteResponse.ts:12-16 | only the deleted response's request list changes, to that list without the response; every other list is untouched |
| SerdeJson.DecodeValue | src-tauri/yaak-plugins/src/events.rs:205 | a `serde_json::Value` field accepts any JSON value as it is |
| SerdeJson.DecodeSeq | src-tauri/yaak-plugins/src/events.rs:119 | a list is read only from a JSON array, and from an array exactly as its items are read one by one, one element per item |
| Catalog.VariantOf | src-tauri/yaak-plugins/src/events.rs:38-98 | the variant picked for an operation and last word has that operation and last word |
| Catalog.WordsRoundTrip | src-tauri/yaak-plugins/src/events.rs:38-98 | every variant is recovered from the words of its name |
| FormInputs.EncodeTextOwn | src-tauri/yaak-plugins/src/events.rs:392-405 | a text input's own fields are written under `placeholder` and `password` |
| FormInputs.DecodeText | src-tauri/yaak-plugins/src/events.rs:392-405 | an object without keys reads as the default text input (`#[serde(default)]`); the base is read from the same object as the own fields |
| FormInputs.EncodeEditorOwn | src-tauri/yaak-plugins/src/events.rs:427-444 | an editor input's own fields are written under `placeholder`, `hideGutter` and `language` |
| FormInputs.DecodeEditor | src-tauri/yaak-plugins/src/events.rs:427-444 | an object without keys reads as the default editor input (`#[serde(default)]`); the base is read from the same object as the own fields |
| FormInputs.EncodeFileOwn | src-tauri/yaak-plugins/src/events.rs:455-479 | a file input's own fields are written under its five camelCase keys |
| FormInputs.DecodeFile | src-tauri/yaak-plugins/src/events.rs:455-479 | an object without keys reads as the default file input, with an empty title (`#[serde(default)]`); the base is read from the same object as the own fields |
| FormInputs.EncodeSelectOwn | src-tauri/yaak-plugins/src/events.rs:491-499 | a select input's own field is written under `options` |
| FormInputs.DecodeSelect | src-tauri/yaak-plugins/src/events.rs:491-499 | an object without keys reads as a select input with the default base and no options (`#[serde(default)]`); the base is read from the same object |
| FormInputs.DecodeCheckbox | src-tauri/yaak-plugins/src/events.rs:502-507 | a checkbox reads from an object exactly when its base does; an empty object reads as the default base |
| FormInputs.DecodeHttpRequestInput | src-tauri/yaak-plugins/src/events.rs:447-452 | an HTTP-request input reads from an object exactly when its base does; an empty object reads as the default base |
| FormInputs.Dispatch | src-tauri/yaak-plugins/src/events.rs:357-366 | a written form input is read by the reader of its own variant |

## Left out

- JSON is modelled as a tree with unordered object keys, no duplicate keys
  and integer numbers only. Text parsing and printing, floats, and the
  order of `HashMap` and object entries are not modelled.
- Errors are identified by kind (`InvalidType`, `MissingField`,
  `UnknownVariant`, `OutOfRange`, `NoVariantMatched`). serde's message
  wording is not modelled. Nor is the order in which serde visits the keys
  of an object with several faults: the model reports the first faulty
  field in declaration order.
- serde also accepts structs given as JSON arrays, and enums given in other
  representations (for example integer indices). These are not modelled:
  every reader accepts only the object or string form that the writers
  produce.
- `ts-rs` TypeScript export attributes are not modelled; they do not affect
  the JSON.
- `WindowContext::from_window` reads the label from a Tauri window. The
  window is not modelled, so `Events.FromWindow` takes the label string
  directly.
- The six model-crate entity types are codec parameters, not data.
  `yaak_models` is not part of this model.
- `Payloads.PayloadRoundTrip`: holds for payloads whose icons are canonical
  (`Payloads.Canonical`). `Events.EventRoundTrip` has the same limit.
  `Icon::_Unknown("copy")` is written exactly as `Icon::Copy` is, so it
  cannot come back as itself (`PluginEnums.UnknownIconShadowed`).
- `PayloadBodies.ShowToastRequestRoundTrip`: holds only for a canonical
  icon, for the same reason. `PayloadBodies.HttpRequestActionRoundTrip` and
  `PayloadBodies.GetHttpRequestActionsResponseRoundTrip` have the same
  limit.
- The `label` and `method` fields are named `labelText` and `httpMethod` in
  the Dafny datatypes. Their JSON keys stay `label` and `method`.
- In `Catalog`, a variant's name is modelled as its list of words. The
  writer and reader of the payload union are split into eight groups of
  variants, such as lifecycle, content and HTTP. The Rust enum has no such
  grouping; the split is a structuring device and does not change the
  behaviour.
- `Input.tsx` rendering, CSS classes, labels, the CodeMirror editor, paste
  handlers and the `onChange`, `onFocus` and `onBlur` callbacks are not
  modelled. A caller's own `onKeyDown` is modelled only as the fact that it
  replaces the submit handler (`callerKeyDown`); what it does is not. The enclosing `<form>` lookup is the boolean `formExists`. The
  form's submit event is the returned `submit` flag.
- The selection reset that `handleBlur` sends to the editor is not
  modelled.
- `FormUrlencodedEditor.tsx`: React memoisation (`useMemo`,
  `useCallback`) and the `PairOrBulkEditor` props are not modelled. NaN and
  floating-point numbers are left out of the truthiness rule.
- `useDeleteResponse.ts`: the `mutationFn` call to the backend's
  `delete_response` command is not modelled. The deleted response is the
  input of `DeleteResponse.ResponsesCache.OnDeleteSuccess`. React Query's
  other cache entries, refetching and `responsesQueryKey`'s key encoding
  are not modelled; the cache is keyed by request id directly.
- Strings are sequences of characters. No Unicode normalisation or
  encoding is modelled.
