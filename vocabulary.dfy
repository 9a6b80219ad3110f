/**
 * The words payload variant names are made of, their lower-case spellings,
 * and reading a spelling back as a word.
 */
module Vocabulary {
  import opened Wrappers
  import opened Naming

  /** The words the variant names are made of, each spelled in lower case. */
  datatype Word =
    | Boot | Request | Response | Reload | Terminate | Import | Filter | Export | Http | Send | Get
    | Actions | Call | Action | Template | Functions | Function | Authentication | Copy | Text
    | Render | Show | Toast | Prompt | By | Id | Find | Responses | Empty

  function Spelling(w: Word): string {
    match w
    case Boot => "boot"
    case Request => "request"
    case Response => "response"
    case Reload => "reload"
    case Terminate => "terminate"
    case Import => "import"
    case Filter => "filter"
    case Export => "export"
    case Http => "http"
    case Send => "send"
    case Get => "get"
    case Actions => "actions"
    case Call => "call"
    case Action => "action"
    case Template => "template"
    case Functions => "functions"
    case Function => "function"
    case Authentication => "authentication"
    case Copy => "copy"
    case Text => "text"
    case Render => "render"
    case Show => "show"
    case Toast => "toast"
    case Prompt => "prompt"
    case By => "by"
    case Id => "id"
    case Find => "find"
    case Responses => "responses"
    case Empty => "empty"
  }

  /** The spellings of a name's words, in order. */
  function Spellings(ws: seq<Word>): (r: seq<string>)
    ensures |r| == |ws| && forall i :: 0 <= i < |ws| ==> r[i] == Spelling(ws[i])
  {
    seq(|ws|, i requires 0 <= i < |ws| => Spelling(ws[i]))
  }

  /** The word of at most five letters spelled `p`, if any. */
  function ShortWordOf(p: string): (r: Option<Word>)
    ensures r.Some? ==> Spelling(r.value) == p
  {
    match p
    case "boot" => Some(Boot)
    case "by" => Some(By)
    case "call" => Some(Call)
    case "copy" => Some(Copy)
    case "empty" => Some(Empty)
    case "find" => Some(Find)
    case "get" => Some(Get)
    case "http" => Some(Http)
    case "id" => Some(Id)
    case "send" => Some(Send)
    case "show" => Some(Show)
    case "text" => Some(Text)
    case "toast" => Some(Toast)
    case _ => None
  }

  /** The word of more than five letters spelled `p`, if any. */
  function LongWordOf(p: string): (r: Option<Word>)
    ensures r.Some? ==> Spelling(r.value) == p
  {
    match p
    case "action" => Some(Action)
    case "actions" => Some(Actions)
    case "authentication" => Some(Authentication)
    case "export" => Some(Export)
    case "filter" => Some(Filter)
    case "function" => Some(Function)
    case "functions" => Some(Functions)
    case "import" => Some(Import)
    case "prompt" => Some(Prompt)
    case "reload" => Some(Reload)
    case "render" => Some(Render)
    case "request" => Some(Request)
    case "response" => Some(Response)
    case "responses" => Some(Responses)
    case "template" => Some(Template)
    case "terminate" => Some(Terminate)
    case _ => None
  }

  /** The word spelled `p`, if any. */
  function WordOf(p: string): (r: Option<Word>)
    ensures r.Some? ==> Spelling(r.value) == p
  {
    if |p| <= 5 then ShortWordOf(p) else LongWordOf(p)
  }

  /** The words spelled by the pieces, if every piece spells one. */
  function WordsOf(ps: seq<string>): (r: Option<seq<Word>>)
    ensures r.Some? ==> Spellings(r.value) == ps
  {
    if ps == [] then Some([])
    else
      match WordOf(ps[0])
      case None => None
      case Some(w) =>
        match WordsOf(ps[1..])
        case None => None
        case Some(ws) => Some([w] + ws)
  }

  // ---- spellings are lower-case words, and read back ----

  lemma LowerCaseSpelling1(w: Word)
    requires w == Boot || w == Request || w == Response || w == Reload || w == Terminate || w == Import
    ensures Spelling(w) != [] && forall i :: 0 <= i < |Spelling(w)| ==> IsLowerAscii(Spelling(w)[i])
  {
  }

  lemma LowerCaseSpelling2(w: Word)
    requires w == Filter || w == Export || w == Http || w == Send || w == Get || w == Actions
    ensures Spelling(w) != [] && forall i :: 0 <= i < |Spelling(w)| ==> IsLowerAscii(Spelling(w)[i])
  {
  }

  lemma LowerCaseSpelling3(w: Word)
    requires w == Call || w == Action || w == Template || w == Functions || w == Function || w == Authentication
    ensures Spelling(w) != [] && forall i :: 0 <= i < |Spelling(w)| ==> IsLowerAscii(Spelling(w)[i])
  {
  }

  lemma LowerCaseSpelling4(w: Word)
    requires w == Copy || w == Text || w == Render || w == Show || w == Toast || w == Prompt
    ensures Spelling(w) != [] && forall i :: 0 <= i < |Spelling(w)| ==> IsLowerAscii(Spelling(w)[i])
  {
  }

  lemma LowerCaseSpelling5(w: Word)
    requires w == By || w == Id || w == Find || w == Responses || w == Empty
    ensures Spelling(w) != [] && forall i :: 0 <= i < |Spelling(w)| ==> IsLowerAscii(Spelling(w)[i])
  {
  }

  /** Every spelling is a non-empty run of lower-case ASCII letters. */
  lemma SpellingIsLowerCase(w: Word)
    ensures LowerCaseWord(Spelling(w))
  {
    if w == Boot || w == Request || w == Response || w == Reload || w == Terminate || w == Import {
      LowerCaseSpelling1(w);
    } else if w == Filter || w == Export || w == Http || w == Send || w == Get || w == Actions {
      LowerCaseSpelling2(w);
    } else if w == Call || w == Action || w == Template || w == Functions || w == Function || w == Authentication {
      LowerCaseSpelling3(w);
    } else if w == Copy || w == Text || w == Render || w == Show || w == Toast || w == Prompt {
      LowerCaseSpelling4(w);
    } else {
      LowerCaseSpelling5(w);
    }
    LowerCaseLettersOf(Spelling(w));
  }

  lemma {:induction false} SpellingsAreLowerCase(ws: seq<Word>)
    ensures LowerCaseWords(Spellings(ws))
  {
    if ws != [] {
      SpellingIsLowerCase(ws[0]);
      SpellingsAreLowerCase(ws[1..]);
      assert Spellings(ws)[1..] == Spellings(ws[1..]);
    }
  }

  /** Every word is read back from its spelling. */
  lemma WordOfSpelling(w: Word)
    ensures WordOf(Spelling(w)) == Some(w)
  {
  }

  lemma {:induction false} WordsOfSpellings(ws: seq<Word>)
    ensures WordsOf(Spellings(ws)) == Some(ws)
  {
    if ws != [] {
      WordOfSpelling(ws[0]);
      WordsOfSpellings(ws[1..]);
      assert Spellings(ws)[1..] == Spellings(ws[1..]);
      assert [ws[0]] + ws[1..] == ws;
    }
  }
}
