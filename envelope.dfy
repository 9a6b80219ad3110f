/**
 * The envelope every plugin event travels in, and the window it concerns.
 * `InternalEvent` is a plain camelCase struct with no container default:
 * every field must be present except `replyId`, an Option that reads a
 * missing key or null as absent.  `WindowContext` is internally tagged like
 * the payload union: `none` carries nothing, `label` carries the window's
 * label beside the tag.
 */
module Events {
  import Wrappers
  import opened SerdeJson
  import B = PayloadBodies
  import P = Payloads

  // ---- WindowContext ----

  datatype WindowContext = None | Label(labelText: string)

  /** The tag each window context is written with. */
  function WindowTag(w: WindowContext): (r: string)
    ensures r == "none" <==> w.None?
    ensures r == "label" <==> w.Label?
  {
    match w
    case None => "none"
    case Label(_) => "label"
  }

  function EncodeWindowContext(w: WindowContext): (r: Json)
    ensures r.Object? && "type" in r.fields && r.fields["type"] == Str(WindowTag(w))
    ensures w.None? ==> r.fields.Keys == {"type"}
    ensures w.Label? ==> r.fields.Keys == {"type", "label"} && r.fields["label"] == Str(w.labelText)
  {
    match w
    case None => Object(map["type" := Str("none")])
    case Label(s) => Object(map["type" := Str("label"), "label" := Str(s)])
  }

  /**
   * A window context: the tag picks the variant, a `label` variant needs its
   * `label` string, and keys beside them are ignored.
   */
  function DecodeWindowContext(j: Json): (r: Decoded<WindowContext>)
    ensures r.Ok? ==> j.Object? && "type" in j.fields && j.fields["type"] == Str(WindowTag(r.value))
    ensures r.Ok? && r.value.Label? ==> "label" in j.fields && j.fields["label"] == Str(r.value.labelText)
    ensures j.Object? && "type" in j.fields && j.fields["type"].Str? && j.fields["type"].s != "none" && j.fields["type"].s != "label"
      ==> r == Wrappers.Err(UnknownVariant(j.fields["type"].s))
  {
    if !j.Object? then Wrappers.Err(InvalidType("an internally tagged enum"))
    else if "type" !in j.fields then Wrappers.Err(MissingField("type"))
    else if !j.fields["type"].Str? then Wrappers.Err(InvalidType("a string"))
    else if j.fields["type"].s == "none" then Wrappers.Ok(None)
    else if j.fields["type"].s == "label" then
      var s :- Required(j.fields, "label", DecodeString);
      Wrappers.Ok(Label(s))
    else Wrappers.Err(UnknownVariant(j.fields["type"].s))
  }

  lemma WindowContextRoundTrip(w: WindowContext)
    ensures DecodeWindowContext(EncodeWindowContext(w)) == Wrappers.Ok(w)
  {
  }

  /** The context of an event raised by a window: that window's label. */
  function FromWindow(windowLabel: string): (r: WindowContext)
    ensures r.Label? && r.labelText == windowLabel
    ensures EncodeWindowContext(r).fields["label"] == Str(windowLabel)
  {
    Label(windowLabel)
  }

  // ---- InternalEvent ----

  datatype InternalEvent<HttpRequest, HttpResponse, Workspace, Environment, Folder, GrpcRequest> = InternalEvent(
    id: string,
    pluginRefId: string,
    replyId: Wrappers.Option<string>,
    payload: P.InternalEventPayload<HttpRequest, HttpResponse, Workspace, Environment, Folder, GrpcRequest>,
    windowContext: WindowContext)

  /** The five keys an event is written with. */
  const EventKeys: set<string> := {"id", "pluginRefId", "replyId", "payload", "windowContext"}

  function EncodeEvent<HttpRequest, HttpResponse, Workspace, Environment, Folder, GrpcRequest>(
    m: B.Models<HttpRequest, HttpResponse, Workspace, Environment, Folder, GrpcRequest>,
    e: InternalEvent<HttpRequest, HttpResponse, Workspace, Environment, Folder, GrpcRequest>): (r: Json)
    ensures r.Object? && r.fields.Keys == EventKeys
    ensures r.fields["id"] == Str(e.id) && r.fields["pluginRefId"] == Str(e.pluginRefId)
    ensures e.replyId.None? ==> r.fields["replyId"] == Null
    ensures e.replyId.Some? ==> r.fields["replyId"] == Str(e.replyId.value)
  {
    Object(map[
      "id" := Str(e.id),
      "pluginRefId" := Str(e.pluginRefId),
      "replyId" := EncodeOption(EncodeString, e.replyId),
      "payload" := P.EncodePayload(m, e.payload),
      "windowContext" := EncodeWindowContext(e.windowContext)])
  }

  /**
   * An event: every field but `replyId` is required; a missing `replyId`
   * reads as absent; keys beside the five are ignored.
   */
  function DecodeEvent<HttpRequest, HttpResponse, Workspace, Environment, Folder, GrpcRequest>(
    m: B.Models<HttpRequest, HttpResponse, Workspace, Environment, Folder, GrpcRequest>,
    j: Json): (r: Decoded<InternalEvent<HttpRequest, HttpResponse, Workspace, Environment, Folder, GrpcRequest>>)
    ensures r.Ok? ==> j.Object? && "id" in j.fields && "pluginRefId" in j.fields && "payload" in j.fields && "windowContext" in j.fields
    ensures j.Object? && "id" !in j.fields ==> r == Wrappers.Err(MissingField("id"))
  {
    if !j.Object? then Wrappers.Err(InvalidType("struct InternalEvent"))
    else
      var o := j.fields;
      var id :- Required(o, "id", DecodeString);
      var pluginRefId :- Required(o, "pluginRefId", DecodeString);
      var replyId :- Optional(o, "replyId", DecodeString);
      var payload :- Required(o, "payload", p => P.DecodePayload(m, p));
      var windowContext :- Required(o, "windowContext", DecodeWindowContext);
      Wrappers.Ok(InternalEvent(id, pluginRefId, replyId, payload, windowContext))
  }

  /** Reading back a written event gives the event. */
  lemma EventRoundTrip<HttpRequest(!new), HttpResponse(!new), Workspace(!new), Environment(!new), Folder(!new), GrpcRequest(!new)>(
    m: B.Models<HttpRequest, HttpResponse, Workspace, Environment, Folder, GrpcRequest>,
    e: InternalEvent<HttpRequest, HttpResponse, Workspace, Environment, Folder, GrpcRequest>)
    requires B.LawfulModels(m) && P.Canonical(e.payload)
    ensures DecodeEvent(m, EncodeEvent(m, e)) == Wrappers.Ok(e)
  {
    var o := EncodeEvent(m, e).fields;
    assert Required(o, "payload", p => P.DecodePayload(m, p)) == Wrappers.Ok(e.payload) by {
      P.PayloadRoundTrip(m, e.payload);
    }
    assert Required(o, "windowContext", DecodeWindowContext) == Wrappers.Ok(e.windowContext) by {
      WindowContextRoundTrip(e.windowContext);
    }
    OptionalRoundTrip(o, "replyId", EncodeString, DecodeString, e.replyId);
  }
}
