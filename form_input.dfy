/**
 * The form-input schema that plugins use to describe the arguments they
 * take.  `FormInput` is internally tagged by "type"; every variant struct
 * flattens a `FormInputBase` beside its own fields, so the base fields sit
 * at the same level as the tag and the variant's fields on the wire.
 */
module FormInputs {
  import opened Wrappers
  import opened SerdeJson
  import E = PluginEnums

  datatype FormInputBase = FormInputBase(
    name: string,
    optional: Option<bool>,
    labelText: Option<string>,
    hideLabel: Option<bool>,
    defaultValue: Option<string>)

  const DefaultBase: FormInputBase := FormInputBase("", None, None, None, None)

  datatype FormInputText = FormInputText(base: FormInputBase, placeholder: Option<string>, password: Option<bool>)

  datatype FormInputEditor = FormInputEditor(
    base: FormInputBase,
    placeholder: Option<string>,
    hideGutter: Option<bool>,
    language: Option<E.EditorLanguage>)

  datatype FormInputHttpRequest = FormInputHttpRequest(base: FormInputBase)

  datatype FileFilter = FileFilter(name: string, extensions: seq<string>)

  datatype FormInputFile = FormInputFile(
    base: FormInputBase,
    title: string,
    multiple: Option<bool>,
    directory: Option<bool>,
    defaultPath: Option<string>,
    filters: Option<seq<FileFilter>>)

  datatype FormInputSelectOption = FormInputSelectOption(name: string, value: string)

  datatype FormInputSelect = FormInputSelect(base: FormInputBase, options: seq<FormInputSelectOption>)

  datatype FormInputCheckbox = FormInputCheckbox(base: FormInputBase)

  datatype FormInput =
    | Text(text: FormInputText)
    | Editor(editor: FormInputEditor)
    | Select(select: FormInputSelect)
    | Checkbox(checkbox: FormInputCheckbox)
    | File(file: FormInputFile)
    | HttpRequest(httpRequest: FormInputHttpRequest)
  {
    function Base(): FormInputBase {
      match this
      case Text(x) => x.base
      case Editor(x) => x.base
      case Select(x) => x.base
      case Checkbox(x) => x.base
      case File(x) => x.base
      case HttpRequest(x) => x.base
    }
  }

  /** The six variants of `FormInput`, named on the wire by their "type" tag. */
  datatype InputType = TextType | EditorType | SelectType | CheckboxType | FileType | HttpRequestType

  function InputTypeTag(t: InputType): string {
    match t
    case TextType => "text"
    case EditorType => "editor"
    case SelectType => "select"
    case CheckboxType => "checkbox"
    case FileType => "file"
    case HttpRequestType => "http_request"
  }

  function InputTypeOf(f: FormInput): InputType {
    match f
    case Text(_) => TextType
    case Editor(_) => EditorType
    case Select(_) => SelectType
    case Checkbox(_) => CheckboxType
    case File(_) => FileType
    case HttpRequest(_) => HttpRequestType
  }

  function FormInputTag(f: FormInput): string { InputTypeTag(InputTypeOf(f)) }

  // ---- FormInputBase ----

  const BaseKeys: set<string> := {"name", "optional", "label", "hideLabel", "defaultValue"}

  function EncodeBase(b: FormInputBase): (r: Fields)
    ensures r.Keys == BaseKeys
  {
    map[
      "name" := Str(b.name),
      "optional" := EncodeOption(EncodeBool, b.optional),
      "label" := EncodeOption(EncodeString, b.labelText),
      "hideLabel" := EncodeOption(EncodeBool, b.hideLabel),
      "defaultValue" := EncodeOption(EncodeString, b.defaultValue)]
  }

  /** Every base field has a default; a present `name` must be a string. */
  function DecodeBase(o: Fields): (r: Decoded<FormInputBase>)
    ensures o == map[] ==> r == Ok(DefaultBase)
    ensures "name" in o && !o["name"].Str? ==> r.Err?
    ensures r.Ok? && "name" in o ==> o["name"] == Str(r.value.name)
  {
    var name :- Field(o, "name", DecodeString, "");
    var optional :- Optional(o, "optional", DecodeBool);
    var labelText :- Optional(o, "label", DecodeString);
    var hideLabel :- Optional(o, "hideLabel", DecodeBool);
    var defaultValue :- Optional(o, "defaultValue", DecodeString);
    Ok(FormInputBase(name, optional, labelText, hideLabel, defaultValue))
  }

  /** The base is read back from any object that holds its keys as written. */
  lemma BaseRoundTrip(b: FormInputBase, o: Fields)
    requires forall k :: k in BaseKeys ==> k in o && o[k] == EncodeBase(b)[k]
    ensures DecodeBase(o) == Ok(b)
  {
    var e := EncodeBase(b);
    assert o["name"] == e["name"] && o["optional"] == e["optional"] && o["label"] == e["label"];
    assert o["hideLabel"] == e["hideLabel"] && o["defaultValue"] == e["defaultValue"];
  }

  // ---- the variant structs: own fields beside the flattened base ----

  function EncodeTextOwn(x: FormInputText): (r: Fields)
    ensures r.Keys == {"placeholder", "password"}
  {
    map["placeholder" := EncodeOption(EncodeString, x.placeholder), "password" := EncodeOption(EncodeBool, x.password)]
  }

  function DecodeText(o: Fields): (r: Decoded<FormInputText>)
    ensures o == map[] ==> r == Ok(FormInputText(DefaultBase, None, None))
    ensures r.Ok? ==> DecodeBase(o) == Ok(r.value.base)
  {
    var base :- DecodeBase(o);
    var placeholder :- Optional(o, "placeholder", DecodeString);
    var password :- Optional(o, "password", DecodeBool);
    Ok(FormInputText(base, placeholder, password))
  }

  function EncodeEditorOwn(x: FormInputEditor): (r: Fields)
    ensures r.Keys == {"placeholder", "hideGutter", "language"}
  {
    map[
      "placeholder" := EncodeOption(EncodeString, x.placeholder),
      "hideGutter" := EncodeOption(EncodeBool, x.hideGutter),
      "language" := EncodeOption(E.EncodeEditorLanguage, x.language)]
  }

  function DecodeEditor(o: Fields): (r: Decoded<FormInputEditor>)
    ensures o == map[] ==> r == Ok(FormInputEditor(DefaultBase, None, None, None))
    ensures r.Ok? ==> DecodeBase(o) == Ok(r.value.base)
  {
    var base :- DecodeBase(o);
    var placeholder :- Optional(o, "placeholder", DecodeString);
    var hideGutter :- Optional(o, "hideGutter", DecodeBool);
    var language :- Optional(o, "language", E.DecodeEditorLanguage);
    Ok(FormInputEditor(base, placeholder, hideGutter, language))
  }

  function EncodeFileFilter(f: FileFilter): (r: Json)
    ensures r.Object? && r.fields.Keys == {"name", "extensions"}
  {
    Object(map["name" := Str(f.name), "extensions" := EncodeSeq(EncodeString, f.extensions)])
  }

  function DecodeFileFilter(j: Json): (r: Decoded<FileFilter>)
    ensures !j.Object? ==> r.Err?
    ensures j == Object(map[]) ==> r == Ok(FileFilter("", []))
  {
    var o :- DecodeFields(j);
    var name :- Field(o, "name", DecodeString, "");
    var extensions :- SeqField(o, "extensions", DecodeString);
    Ok(FileFilter(name, extensions))
  }

  lemma FileFilterRoundTrip(f: FileFilter)
    ensures DecodeFileFilter(EncodeFileFilter(f)) == Ok(f)
  {
    SeqRoundTrip(EncodeString, DecodeString, f.extensions);
  }

  function EncodeFileFilters(fs: seq<FileFilter>): Json { EncodeSeq(EncodeFileFilter, fs) }

  function DecodeFileFilters(j: Json): Decoded<seq<FileFilter>> { DecodeSeq(DecodeFileFilter, j) }

  lemma FileFiltersRoundTrip(fs: seq<FileFilter>)
    ensures DecodeFileFilters(EncodeFileFilters(fs)) == Ok(fs)
  {
    forall i | 0 <= i < |fs| ensures DecodeFileFilter(EncodeFileFilter(fs[i])) == Ok(fs[i]) {
      FileFilterRoundTrip(fs[i]);
    }
    SeqRoundTrip(EncodeFileFilter, DecodeFileFilter, fs);
  }

  function EncodeFileOwn(x: FormInputFile): (r: Fields)
    ensures r.Keys == {"title", "multiple", "directory", "defaultPath", "filters"}
  {
    map[
      "title" := Str(x.title),
      "multiple" := EncodeOption(EncodeBool, x.multiple),
      "directory" := EncodeOption(EncodeBool, x.directory),
      "defaultPath" := EncodeOption(EncodeString, x.defaultPath),
      "filters" := EncodeOption(EncodeFileFilters, x.filters)]
  }

  function DecodeFile(o: Fields): (r: Decoded<FormInputFile>)
    ensures o == map[] ==> r == Ok(FormInputFile(DefaultBase, "", None, None, None, None))
    ensures r.Ok? ==> DecodeBase(o) == Ok(r.value.base)
  {
    var base :- DecodeBase(o);
    var title :- Field(o, "title", DecodeString, "");
    var multiple :- Optional(o, "multiple", DecodeBool);
    var directory :- Optional(o, "directory", DecodeBool);
    var defaultPath :- Optional(o, "defaultPath", DecodeString);
    var filters :- Optional(o, "filters", DecodeFileFilters);
    Ok(FormInputFile(base, title, multiple, directory, defaultPath, filters))
  }

  function EncodeSelectOption(x: FormInputSelectOption): (r: Json)
    ensures r.Object? && r.fields.Keys == {"name", "value"}
  {
    Object(map["name" := Str(x.name), "value" := Str(x.value)])
  }

  function DecodeSelectOption(j: Json): (r: Decoded<FormInputSelectOption>)
    ensures !j.Object? ==> r.Err?
    ensures j == Object(map[]) ==> r == Ok(FormInputSelectOption("", ""))
  {
    var o :- DecodeFields(j);
    var name :- Field(o, "name", DecodeString, "");
    var value :- Field(o, "value", DecodeString, "");
    Ok(FormInputSelectOption(name, value))
  }

  lemma SelectOptionRoundTrip(x: FormInputSelectOption)
    ensures DecodeSelectOption(EncodeSelectOption(x)) == Ok(x)
  {
  }

  function EncodeSelectOwn(x: FormInputSelect): (r: Fields)
    ensures r.Keys == {"options"}
  {
    map["options" := EncodeSeq(EncodeSelectOption, x.options)]
  }

  function DecodeSelect(o: Fields): (r: Decoded<FormInputSelect>)
    ensures o == map[] ==> r == Ok(FormInputSelect(DefaultBase, []))
    ensures r.Ok? ==> DecodeBase(o) == Ok(r.value.base)
  {
    var base :- DecodeBase(o);
    var options :- SeqField(o, "options", DecodeSelectOption);
    Ok(FormInputSelect(base, options))
  }

  function DecodeCheckbox(o: Fields): (r: Decoded<FormInputCheckbox>)
    ensures o == map[] ==> r == Ok(FormInputCheckbox(DefaultBase))
    ensures r.Ok? <==> DecodeBase(o).Ok?
  {
    var base :- DecodeBase(o);
    Ok(FormInputCheckbox(base))
  }

  function DecodeHttpRequestInput(o: Fields): (r: Decoded<FormInputHttpRequest>)
    ensures o == map[] ==> r == Ok(FormInputHttpRequest(DefaultBase))
    ensures r.Ok? <==> DecodeBase(o).Ok?
  {
    var base :- DecodeBase(o);
    Ok(FormInputHttpRequest(base))
  }

  // ---- FormInput ----

  function EncodeOwn(f: FormInput): Fields {
    match f
    case Text(x) => EncodeTextOwn(x)
    case Editor(x) => EncodeEditorOwn(x)
    case Select(x) => EncodeSelectOwn(x)
    case Checkbox(_) => map[]
    case File(x) => EncodeFileOwn(x)
    case HttpRequest(_) => map[]
  }

  /** The keys a variant adds beside the base. */
  function OwnKeys(f: FormInput): set<string> {
    match f
    case Text(_) => {"placeholder", "password"}
    case Editor(_) => {"placeholder", "hideGutter", "language"}
    case Select(_) => {"options"}
    case Checkbox(_) => {}
    case File(_) => {"title", "multiple", "directory", "defaultPath", "filters"}
    case HttpRequest(_) => {}
  }

  /** The variant's struct, flattened, with the "type" tag beside its fields. */
  function EncodeFormInput(f: FormInput): (r: Json)
    ensures r.Object? && "type" in r.fields && r.fields["type"] == Str(FormInputTag(f))
    ensures BaseKeys <= r.fields.Keys
  {
    Object((EncodeBase(f.Base()) + EncodeOwn(f))["type" := Str(FormInputTag(f))])
  }

  /** The variant a "type" tag names, if any; the tag table inverted. */
  function InputTypeOfTag(tag: string): (r: Option<InputType>)
    ensures r.Some? ==> InputTypeTag(r.value) == tag
  {
    match tag
    case "text" => Some(TextType)
    case "editor" => Some(EditorType)
    case "select" => Some(SelectType)
    case "checkbox" => Some(CheckboxType)
    case "file" => Some(FileType)
    case "http_request" => Some(HttpRequestType)
    case _ => None
  }

  lemma InputTypeTagRoundTrip(t: InputType)
    ensures InputTypeOfTag(InputTypeTag(t)) == Some(t)
  {
    match t
    case TextType =>
    case EditorType =>
    case SelectType =>
    case CheckboxType =>
    case FileType =>
    case HttpRequestType =>
  }

  /**
   * Reads the variant named by the tag from the object that carries it; the
   * variant decoders ignore keys they do not know, "type" among them.
   */
  function DecodeVariant(t: InputType, o: Fields): (r: Decoded<FormInput>)
    ensures r.Ok? ==> InputTypeOf(r.value) == t
    ensures r.Ok? ==> DecodeBase(o) == Ok(r.value.Base())
  {
    match t
    case TextType => var x :- DecodeText(o); Ok(Text(x))
    case EditorType => var x :- DecodeEditor(o); Ok(Editor(x))
    case SelectType => var x :- DecodeSelect(o); Ok(Select(x))
    case CheckboxType => var x :- DecodeCheckbox(o); Ok(Checkbox(x))
    case FileType => var x :- DecodeFile(o); Ok(File(x))
    case HttpRequestType => var x :- DecodeHttpRequestInput(o); Ok(HttpRequest(x))
  }

  function DecodeFormInput(j: Json): (r: Decoded<FormInput>)
    ensures r.Ok? ==> j.Object? && "type" in j.fields && j.fields["type"] == Str(FormInputTag(r.value))
    ensures j.Object? && "type" in j.fields && j.fields["type"].Str? && InputTypeOfTag(j.fields["type"].s) == None
            ==> r == Err(UnknownVariant(j.fields["type"].s))
  {
    if !j.Object? then Err(InvalidType("internally tagged enum FormInput"))
    else if "type" !in j.fields then Err(MissingField("type"))
    else if !j.fields["type"].Str? then Err(InvalidType("a variant name"))
    else
      match InputTypeOfTag(j.fields["type"].s)
      case None => Err(UnknownVariant(j.fields["type"].s))
      case Some(t) => DecodeVariant(t, j.fields)
  }

  /** The base, the variant's own fields and the tag share one object, with no key in common. */
  lemma FormInputLayout(f: FormInput)
    ensures EncodeFormInput(f).fields.Keys == BaseKeys + OwnKeys(f) + {"type"}
    ensures BaseKeys !! OwnKeys(f) && "type" !in BaseKeys + OwnKeys(f)
    ensures EncodeFormInput(f).fields["type"] == Str(FormInputTag(f))
  {
    assert EncodeOwn(f).Keys == OwnKeys(f);
    KeysDisjoint(f);
  }

  lemma KeysDisjoint(f: FormInput)
    ensures BaseKeys !! OwnKeys(f) && "type" !in BaseKeys + OwnKeys(f)
  {
    match f
    case Text(_) =>
    case Editor(_) =>
    case Select(_) =>
    case Checkbox(_) =>
    case File(_) =>
    case HttpRequest(_) =>
  }

  /** Flattening keeps every base field as the base alone would have written it. */
  lemma BaseInObject(f: FormInput)
    ensures forall k :: k in BaseKeys ==> k in EncodeFormInput(f).fields && EncodeFormInput(f).fields[k] == EncodeBase(f.Base())[k]
  {
    FormInputLayout(f);
  }

  /** ... and every field the variant adds. */
  lemma OwnInObject(f: FormInput)
    ensures forall k :: k in EncodeOwn(f) ==> k in EncodeFormInput(f).fields && EncodeFormInput(f).fields[k] == EncodeOwn(f)[k]
  {
    FormInputLayout(f);
    assert EncodeOwn(f).Keys == OwnKeys(f);
  }

  /** Decoding a tagged object hands it to the variant its tag names. */
  lemma Dispatch(f: FormInput)
    ensures DecodeFormInput(EncodeFormInput(f)) == DecodeVariant(InputTypeOf(f), EncodeFormInput(f).fields)
  {
    InputTypeTagRoundTrip(InputTypeOf(f));
  }

  lemma DecodeTextFrom(x: FormInputText, o: Fields)
    requires DecodeBase(o) == Ok(x.base)
    requires forall k :: k in EncodeTextOwn(x) ==> k in o && o[k] == EncodeTextOwn(x)[k]
    ensures DecodeText(o) == Ok(x)
  {
    var e := EncodeTextOwn(x);
    OptionalRoundTrip(o, "placeholder", EncodeString, DecodeString, x.placeholder);
    OptionalRoundTrip(o, "password", EncodeBool, DecodeBool, x.password);
  }

  lemma DecodeEditorFrom(x: FormInputEditor, o: Fields)
    requires DecodeBase(o) == Ok(x.base)
    requires forall k :: k in EncodeEditorOwn(x) ==> k in o && o[k] == EncodeEditorOwn(x)[k]
    ensures DecodeEditor(o) == Ok(x)
  {
    var e := EncodeEditorOwn(x);
    OptionalRoundTrip(o, "placeholder", EncodeString, DecodeString, x.placeholder);
    OptionalRoundTrip(o, "hideGutter", EncodeBool, DecodeBool, x.hideGutter);
    if x.language.Some? {
      E.EditorLanguageRoundTrip(x.language.value);
    }
    OptionalRoundTrip(o, "language", E.EncodeEditorLanguage, E.DecodeEditorLanguage, x.language);
  }

  lemma DecodeSelectFrom(x: FormInputSelect, o: Fields)
    requires DecodeBase(o) == Ok(x.base)
    requires forall k :: k in EncodeSelectOwn(x) ==> k in o && o[k] == EncodeSelectOwn(x)[k]
    ensures DecodeSelect(o) == Ok(x)
  {
    assert o["options"] == EncodeSeq(EncodeSelectOption, x.options);
    forall i | 0 <= i < |x.options| ensures DecodeSelectOption(EncodeSelectOption(x.options[i])) == Ok(x.options[i]) {
      SelectOptionRoundTrip(x.options[i]);
    }
    SeqRoundTrip(EncodeSelectOption, DecodeSelectOption, x.options);
  }

  lemma DecodeFileFrom(x: FormInputFile, o: Fields)
    requires DecodeBase(o) == Ok(x.base)
    requires forall k :: k in EncodeFileOwn(x) ==> k in o && o[k] == EncodeFileOwn(x)[k]
    ensures DecodeFile(o) == Ok(x)
  {
    var e := EncodeFileOwn(x);
    assert o["title"] == e["title"];
    OptionalRoundTrip(o, "multiple", EncodeBool, DecodeBool, x.multiple);
    OptionalRoundTrip(o, "directory", EncodeBool, DecodeBool, x.directory);
    OptionalRoundTrip(o, "defaultPath", EncodeString, DecodeString, x.defaultPath);
    if x.filters.Some? {
      FileFiltersRoundTrip(x.filters.value);
    }
    OptionalRoundTrip(o, "filters", EncodeFileFilters, DecodeFileFilters, x.filters);
  }

  /** Every form input survives the flattened, tagged encoding. */
  lemma FormInputRoundTrip(f: FormInput)
    ensures DecodeFormInput(EncodeFormInput(f)) == Ok(f)
  {
    var o := EncodeFormInput(f).fields;
    Dispatch(f);
    BaseInObject(f);
    BaseRoundTrip(f.Base(), o);
    OwnInObject(f);
    DecodeVariantFrom(f, o);
  }

  lemma DecodeVariantFrom(f: FormInput, o: Fields)
    requires DecodeBase(o) == Ok(f.Base())
    requires forall k :: k in EncodeOwn(f) ==> k in o && o[k] == EncodeOwn(f)[k]
    ensures DecodeVariant(InputTypeOf(f), o) == Ok(f)
  {
    match f
    case Text(x) => DecodeTextFrom(x, o);
    case Editor(x) => DecodeEditorFrom(x, o);
    case Select(x) => DecodeSelectFrom(x, o);
    case Checkbox(x) =>
    case File(x) => DecodeFileFrom(x, o);
    case HttpRequest(x) =>
  }

  function EncodeFormInputs(fs: seq<FormInput>): Json { EncodeSeq(EncodeFormInput, fs) }

  function DecodeFormInputs(j: Json): Decoded<seq<FormInput>> { DecodeSeq(DecodeFormInput, j) }

  lemma FormInputsRoundTrip(fs: seq<FormInput>)
    ensures DecodeFormInputs(EncodeFormInputs(fs)) == Ok(fs)
  {
    forall i | 0 <= i < |fs| ensures DecodeFormInput(EncodeFormInput(fs[i])) == Ok(fs[i]) {
      FormInputRoundTrip(fs[i]);
    }
    SeqRoundTrip(EncodeFormInput, DecodeFormInput, fs);
  }
}
