/**
 * The four plain enums of the plugin-event schema.  Color, EditorLanguage
 * and RenderPurpose are externally tagged unit enums with snake_case names,
 * so each value travels as a bare JSON string.  Icon adds one untagged
 * fallback variant that catches every string the named variants do not.
 */
module PluginEnums {
  import opened Wrappers
  import opened SerdeJson

  /** A snake_case variant name: non-empty, lower-case ASCII letters and underscores only. */
  predicate SnakeName(s: string) {
    |s| > 0 && forall i :: 0 <= i < |s| ==> ('a' <= s[i] <= 'z' || s[i] == '_')
  }

  // ---- Color ----

  datatype Color = Custom | Default | Primary | Secondary | Info | Success | Notice | Warning | Danger

  /**
   * `impl Default for Color`.  Every `Color` of the schema sits inside an
   * optional field, so no decoder ever falls back on it.
   */
  const DefaultColor: Color := Color.Default

  function ColorName(c: Color): string {
    match c
    case Custom => "custom"
    case Default => "default"
    case Primary => "primary"
    case Secondary => "secondary"
    case Info => "info"
    case Success => "success"
    case Notice => "notice"
    case Warning => "warning"
    case Danger => "danger"
  }

  /** A color travels as its snake_case name. */
  function EncodeColor(c: Color): (r: Json)
    ensures r.Str? && SnakeName(r.s)
  {
    Str(ColorName(c))
  }

  function DecodeColor(j: Json): (r: Decoded<Color>)
    ensures r.Ok? ==> j == EncodeColor(r.value)
  {
    if !j.Str? then Err(InvalidType("a color name"))
    else match j.s
      case "custom" => Ok(Custom)
      case "default" => Ok(Color.Default)
      case "primary" => Ok(Primary)
      case "secondary" => Ok(Secondary)
      case "info" => Ok(Color.Info)
      case "success" => Ok(Success)
      case "notice" => Ok(Notice)
      case "warning" => Ok(Warning)
      case "danger" => Ok(Danger)
      case _ => Err(UnknownVariant(j.s))
  }

  lemma ColorRoundTrip(c: Color)
    ensures DecodeColor(EncodeColor(c)) == Ok(c)
  {
  }

  /** The default color is the one named "default", and that name reads back as it. */
  lemma ColorDefault()
    ensures EncodeColor(DefaultColor) == Str("default")
    ensures DecodeColor(Str("default")) == Ok(DefaultColor)
  {
  }

  // ---- Icon ----

  /** `_Unknown(String)` of the source is `Unknown` here. */
  datatype Icon = Copy | Info | CheckCircle | AlertTriangle | Unknown(name: string)

  /** The names of the tagged icon variants. */
  const IconNames: set<string> := {"copy", "info", "check_circle", "alert_triangle"}

  /** A tagged icon travels as its snake_case name, an `Unknown` one as the name it carries. */
  function EncodeIcon(i: Icon): (r: Json)
    ensures r.Str?
    ensures !i.Unknown? ==> r.s in IconNames && SnakeName(r.s)
    ensures i.Unknown? ==> r == Str(i.name)
  {
    match i
    case Copy => Str("copy")
    case Info => Str("info")
    case CheckCircle => Str("check_circle")
    case AlertTriangle => Str("alert_triangle")
    case Unknown(s) => Str(s)
  }

  /**
   * The tagged variants are tried first; any other string falls through to
   * the untagged `Unknown`.  Only a non-string fails.
   */
  function DecodeIcon(j: Json): (r: Decoded<Icon>)
    ensures r.Ok? <==> j.Str?
    ensures r.Ok? ==> EncodeIcon(r.value) == j
    ensures r.Ok? ==> (r.value.Unknown? <==> j.s !in IconNames)
  {
    if !j.Str? then Err(NoVariantMatched)
    else match j.s
      case "copy" => Ok(Copy)
      case "info" => Ok(Icon.Info)
      case "check_circle" => Ok(CheckCircle)
      case "alert_triangle" => Ok(AlertTriangle)
      case _ => Ok(Unknown(j.s))
  }

  /** An icon that is written the way it will be read back. */
  predicate CanonicalIcon(i: Icon) {
    i.Unknown? ==> i.name !in IconNames
  }

  lemma IconRoundTrip(i: Icon)
    requires CanonicalIcon(i)
    ensures DecodeIcon(EncodeIcon(i)) == Ok(i)
  {
  }

  /** Every icon that decoding produces is canonical. */
  lemma DecodedIconIsCanonical(j: Json)
    requires DecodeIcon(j).Ok?
    ensures CanonicalIcon(DecodeIcon(j).value)
  {
  }

  /** A non-canonical `Unknown` is written as a known name and read back as that name. */
  lemma UnknownIconShadowed()
    ensures EncodeIcon(Unknown("copy")) == EncodeIcon(Copy)
    ensures DecodeIcon(EncodeIcon(Unknown("copy"))) == Ok(Copy)
  {
  }

  // ---- EditorLanguage ----

  datatype EditorLanguage = Text | Javascript | Json | Html | Xml | Graphql | Markdown

  /**
   * `impl Default for EditorLanguage`.  The only `EditorLanguage` of the
   * schema is an optional field, so no decoder ever falls back on it.
   */
  const DefaultEditorLanguage: EditorLanguage := EditorLanguage.Text

  function EditorLanguageName(l: EditorLanguage): string {
    match l
    case Text => "text"
    case Javascript => "javascript"
    case Json => "json"
    case Html => "html"
    case Xml => "xml"
    case Graphql => "graphql"
    case Markdown => "markdown"
  }

  /** An editor language travels as its snake_case name. */
  function EncodeEditorLanguage(l: EditorLanguage): (r: SerdeJson.Json)
    ensures r.Str? && SnakeName(r.s)
  {
    Str(EditorLanguageName(l))
  }

  function DecodeEditorLanguage(j: SerdeJson.Json): (r: Decoded<EditorLanguage>)
    ensures r.Ok? ==> j == EncodeEditorLanguage(r.value)
  {
    if !j.Str? then Err(InvalidType("an editor language"))
    else match j.s
      case "text" => Ok(EditorLanguage.Text)
      case "javascript" => Ok(Javascript)
      case "json" => Ok(EditorLanguage.Json)
      case "html" => Ok(Html)
      case "xml" => Ok(Xml)
      case "graphql" => Ok(Graphql)
      case "markdown" => Ok(Markdown)
      case _ => Err(UnknownVariant(j.s))
  }

  lemma EditorLanguageRoundTrip(l: EditorLanguage)
    ensures DecodeEditorLanguage(EncodeEditorLanguage(l)) == Ok(l)
  {
  }

  /** The default editor language is plain text, named "text". */
  lemma EditorLanguageDefault()
    ensures EncodeEditorLanguage(DefaultEditorLanguage) == Str("text")
    ensures DecodeEditorLanguage(Str("text")) == Ok(DefaultEditorLanguage)
  {
  }

  // ---- RenderPurpose ----

  datatype RenderPurpose = Send | Preview

  /** `impl Default for RenderPurpose`. */
  const DefaultRenderPurpose: RenderPurpose := Preview

  /** A render purpose travels as its snake_case name. */
  function EncodeRenderPurpose(p: RenderPurpose): (r: SerdeJson.Json)
    ensures r.Str? && SnakeName(r.s)
  {
    match p
    case Send => Str("send")
    case Preview => Str("preview")
  }

  function DecodeRenderPurpose(j: SerdeJson.Json): (r: Decoded<RenderPurpose>)
    ensures r.Ok? ==> j == EncodeRenderPurpose(r.value)
  {
    if !j.Str? then Err(InvalidType("a render purpose"))
    else if j.s == "send" then Ok(Send)
    else if j.s == "preview" then Ok(Preview)
    else Err(UnknownVariant(j.s))
  }

  lemma RenderPurposeRoundTrip(p: RenderPurpose)
    ensures DecodeRenderPurpose(EncodeRenderPurpose(p)) == Ok(p)
  {
  }

  /** An argument rendering without a stated purpose renders for a preview, written "preview". */
  lemma RenderPurposeDefault()
    ensures EncodeRenderPurpose(DefaultRenderPurpose) == Str("preview")
    ensures DecodeRenderPurpose(Str("preview")) == Ok(DefaultRenderPurpose)
  {
  }
}
