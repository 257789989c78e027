/** What each visit of the HTML back end writes and how it changes the two
    render flags, as pure functions of the node and the visitor's state.
    The class in htmldocvisitor.dfy performs these steps one write at a time
    and is proved to agree with them; the lemmas here state the rules. */
module HtmlMarkup {
  import opened Text
  import opened DocNodes

  datatype Option<T> = None | Some(value: T)

  /** The translator entries the visitor asks for (theTranslator->tr...()).
      TrAuthor(singular) is trAuthor(TRUE, singular). */
  datatype Label =
    | TrSeeAlso | TrReturns | TrAuthor(singular: bool) | TrVersion | TrSince | TrDate
    | TrNote | TrWarning | TrPrecondition | TrPostcondition | TrInvariant | TrRemarks
    | TrAttention | TrParameters | TrReturnValues | TrExceptions | TrForInternalUseOnly

  /** The two branches of the `#if !defined(_WIN32)` in the formula visit. */
  datatype Platform = Unix | Windows

  /** Everything the visitor calls but does not define: `filter`, `startLink`
      and `endLink` (declared in the class, defined elsewhere), `parseCode`
      through the code interface, the translator, the HTML file extension,
      the configuration values it reads, and the platform. */
  datatype Env = Env(
    filter: string -> string,
    startLink: (string, string, string) -> string,
    endLink: string,
    highlight: (string, string) -> string,
    tr: Label -> string,
    htmlFileExtension: string,
    htmlOutput: string,
    dotImageFormat: string,
    platform: Platform)

  /** One call of writeDotGraphFromFile(file, outDir, baseName, BITMAP). */
  datatype GraphRequest = GraphRequest(file: string, outDir: string, baseName: string)

  /** The visitor's state: the stream written so far (m_t), m_hide, m_insidePre,
      and the diagram renderings requested so far. */
  datatype State = State(out: string, hidden: bool, insidePre: bool, graphs: seq<GraphRequest>)

  /** The state the constructor leaves: nothing written, both flags false. */
  function Initial(): State
  {
    State("", false, false, [])
  }

  const FragmentOpen: string := "<div class=\"fragment\"><pre>"
  const FragmentClose: string := "</pre></div>"
  const ParamRowOpen: string := "    <tr><td valign=top><em>"
  const ParamRowClose: string := "</em>&nbsp;</td><td>"

  // ---------------------------------------------------------------------------
  // Symbols and style changes
  // ---------------------------------------------------------------------------

  /** The literal written for a symbol code. An unknown code writes nothing
      (the visitor only prints a diagnostic on the console). */
  function SymbolText(code: SymbolCode, letter: char): (r: string)
    ensures r == "" <==> code.Unknown?
    ensures letter != '<' && letter != '>' ==> '<' !in r && '>' !in r
    ensures '&' in r ==> r[0] == '&' && r[|r| - 1] == ';'
  {
    match code
    case BSlash => "\\"
    case At => "@"
    case Less => "&lt;"
    case Greater => "&gt;"
    case Amp => "&amp;"
    case Dollar => "$"
    case Hash => "#"
    case Percent => "%"
    case Copy => "&copy;"
    case Apos => "'"
    case Quot => "\""
    case Uml => "&" + [letter] + "uml;"
    case Acute => "&" + [letter] + "acute;"
    case Grave => "&" + [letter] + "grave;"
    case Circ => "&" + [letter] + "circ;"
    case Tilde => "&" + [letter] + "tilde;"
    case Szlig => "&szlig;"
    case Cedil => "&" + [letter] + "cedul;"
    case Ring => "&" + [letter] + "ring;"
    case Nbsp => "&nbsp;"
    case Unknown => ""
  }

  /** The entity name that follows the letter for the accent codes, as the
      visitor spells it (including its `cedul` for the cedilla). */
  function AccentName(code: SymbolCode): Option<string>
  {
    match code
    case Uml => Some("uml")
    case Acute => Some("acute")
    case Grave => Some("grave")
    case Circ => Some("circ")
    case Tilde => Some("tilde")
    case Cedil => Some("cedul")
    case Ring => Some("ring")
    case _ => None
  }

  /** The HTML element a style change switches on or off. */
  function StyleTag(style: Style): string
  {
    match style
    case Bold => "b"
    case Italic => "em"
    case Code => "code"
    case Subscript => "sub"
    case Superscript => "sup"
    case Center => "center"
    case Small => "small"
  }

  /** A style change opens its element, or closes it followed by one space. */
  function StyleText(style: Style, enable: bool): (r: string)
    ensures r == if enable then "<" + StyleTag(style) + ">" else "</" + StyleTag(style) + "> "
  {
    match style
    case Bold => if enable then "<b>" else "</b> "
    case Italic => if enable then "<em>" else "</em> "
    case Code => if enable then "<code>" else "</code> "
    case Subscript => if enable then "<sub>" else "</sub> "
    case Superscript => if enable then "<sup>" else "</sup> "
    case Center => if enable then "<center>" else "</center> "
    case Small => if enable then "<small>" else "</small> "
  }

  // ---------------------------------------------------------------------------
  // Leaf visits
  // ---------------------------------------------------------------------------

  /** Every leaf visit except the include operator returns at once when m_hide is set. */
  predicate IsGuarded(leaf: Leaf)
  {
    !leaf.IncOperator?
  }

  function VerbatimMarkup(env: Env, t: VerbatimType, context: string, text: string): string
  {
    match t
    case Code => FragmentOpen + env.highlight(context, text) + FragmentClose
    case Verbatim => FragmentOpen + env.filter(text) + FragmentClose
    case HtmlOnly => text
    case LatexOnly => ""
  }

  function IncludeMarkup(env: Env, t: IncludeType, context: string, text: string): string
  {
    match t
    case Include => FragmentOpen + env.highlight(context, text) + FragmentClose
    case DontInclude => ""
    case HtmlInclude => text
    case VerbInclude => FragmentOpen + env.filter(text) + FragmentClose
  }

  function FormulaAlign(p: Platform): string
  {
    match p
    case Unix => "\"top\""
    case Windows => "\"middle\""
  }

  /** A formula whose text starts with a backslash is a display formula. An
      empty text has no first character and counts as inline. */
  predicate IsDisplayFormula(text: string)
  {
    |text| > 0 && text[0] == '\\'
  }

  /** A display formula is centred in a paragraph of its own; an inline one
      is followed by a space. */
  function FormulaMarkup(env: Env, name: string, text: string): string
  {
    if IsDisplayFormula(text) then
      ("<p><center>" + "\n") + "<img align=" + FormulaAlign(env.platform) + (" src=\"" + name + ".png\">")
      + ("\n" + "</center><p>" + "\n")
    else
      "<img align=" + FormulaAlign(env.platform) + (" src=\"" + name + ".png\">") + " "
  }

  /** What a guarded leaf writes when output is not hidden. */
  function LeafMarkup(env: Env, leaf: Leaf, insidePre: bool): (r: string)
    requires IsGuarded(leaf)
  {
    match leaf
    case Word(w) => env.filter(w)
    case LinkedWord(w, ref, file, anchor) => env.startLink(ref, file, anchor) + env.filter(w) + env.endLink
    case WhiteSpace(chars) => if insidePre then chars else " "
    case Symbol(code, letter) => SymbolText(code, letter)
    case URL(url) => "<a href=\"" + url + "\">" + url + "</a>"
    case LineBreak => "<br>\n"
    case HorRuler => "<hr>\n"
    case StyleChange(style, enable) => StyleText(style, enable)
    case Verbatim(t, context, text) => VerbatimMarkup(env, t, context, text)
    case Anchor(_) => "<a name=\"%s\"/></a>"
    case Include(t, context, text) => IncludeMarkup(env, t, context, text)
    case Formula(name, text) => FormulaMarkup(env, name, text)
  }

  /** One fragment of a multi-fragment listing: the first opens the block and
      hides everything else, a fragment that is not skipped is highlighted,
      the last clears the hiding and closes the block, any other ends with a
      newline. The incoming m_hide is never consulted. */
  function IncOperatorStep(env: Env, st: State, op: IncOp): (r: State)
    ensures op.isLast ==> !r.hidden
    ensures op.isFirst && !op.isLast ==> r.hidden
    ensures !op.isFirst && !op.isLast ==> r.hidden == st.hidden
    ensures r.insidePre == st.insidePre && r.graphs == st.graphs
    ensures st.out <= r.out
  {
    var afterOpen := if op.isFirst then st.(out := st.out + FragmentOpen, hidden := true) else st;
    var coded := if op.opType != Skip then afterOpen.(out := afterOpen.out + env.highlight(op.context, op.text)) else afterOpen;
    if op.isLast then coded.(hidden := false, out := coded.out + FragmentClose)
    else coded.(out := coded.out + "\n")
  }

  /** visit(leaf) */
  function VisitLeaf(env: Env, st: State, leaf: Leaf): (r: State)
    ensures IsGuarded(leaf) && st.hidden ==> r == st
    ensures IsGuarded(leaf) ==> r.hidden == st.hidden
    ensures r.insidePre == st.insidePre && r.graphs == st.graphs
    ensures st.out <= r.out
  {
    if leaf.IncOperator? then IncOperatorStep(env, st, leaf.op)
    else if st.hidden then st
    else st.(out := st.out + LeafMarkup(env, leaf, st.insidePre))
  }

  // ---------------------------------------------------------------------------
  // Compound visits
  // ---------------------------------------------------------------------------

  /** The translator label a simple section opens with; user-titled and
      unknown sections have none. */
  function SimpleSectLabel(t: SimpleSectType): Option<Label>
  {
    match t
    case See => Some(TrSeeAlso)
    case Return => Some(TrReturns)
    case Author => Some(TrAuthor(true))
    case Authors => Some(TrAuthor(false))
    case Version => Some(TrVersion)
    case Since => Some(TrSince)
    case Date => Some(TrDate)
    case Note => Some(TrNote)
    case Warning => Some(TrWarning)
    case Pre => Some(TrPrecondition)
    case Post => Some(TrPostcondition)
    case Invar => Some(TrInvariant)
    case Remark => Some(TrRemarks)
    case Attention => Some(TrAttention)
    case User => None
    case Unknown => None
  }

  /** The label a parameter section opens with; an unknown kind has none. */
  function ParamSectLabel(t: ParamSectType): Option<Label>
  {
    match t
    case Param => Some(TrParameters)
    case RetVal => Some(TrReturnValues)
    case Exception => Some(TrExceptions)
    case Unknown => None
  }

  function LabelText(env: Env, l: Option<Label>): string
  {
    match l
    case Some(entry) => env.tr(entry)
    case None => ""
  }

  /** The `alt` text of an image: the name after its last '/', or when there
      is none after its last '\\', or the whole name. */
  function ImageBaseName(name: string): (r: string)
  {
    var i := LastIndexOf(name, '/');
    if i != -1 then name[i + 1..]
    else
      var j := LastIndexOf(name, '\\');
      if j != -1 then name[j + 1..] else name
  }

  /** The image base name is a suffix of the name holding no '/' when the
      name has one, no '\\' when it has no '/', and is the whole name when
      it has neither. */
  lemma ImageBaseNameShape(name: string)
    ensures var r := ImageBaseName(name);
      EndsWith(name, r)
      && ('/' in name ==> '/' !in r)
      && ('/' !in name ==> '\\' !in r)
      && ('/' !in name && '\\' !in name ==> r == name)
  {
    var i := LastIndexOf(name, '/');
    if i != -1 {
      assert ImageBaseName(name) == name[i + 1..];
    } else {
      var j := LastIndexOf(name, '\\');
      if j != -1 {
        assert ImageBaseName(name) == name[j + 1..];
      }
    }
  }

  /** The base name of a dot file: what follows its last '/'. */
  function DotBaseName(file: string): (r: string)
  {
    var i := LastIndexOf(file, '/');
    if i != -1 then file[i + 1..] else file
  }

  /** The dot file's base name is a suffix of the file name without any '/',
      and the whole name when there is none. */
  lemma DotBaseNameShape(file: string)
    ensures var r := DotBaseName(file);
      EndsWith(file, r) && '/' !in r && ('/' !in file ==> r == file)
  {
  }

  /** The file part of a section-reference link: the file name with the HTML
      extension appended unless it already ends with it. */
  function SecRefFileName(file: string, ext: string): (r: string)
    ensures EndsWith(r, ext)
    ensures EndsWith(file, ext) ==> r == file
    ensures !EndsWith(file, ext) ==> r == file + ext
  {
    RightMatchesIffEndsWith(file, ext);
    if Right(file, |ext|) != ext then
      assert (file + ext)[|file|..] == ext;
      file + ext
    else file
  }

  function HeadingOpen(n: int): string
  {
    "<h" + IntToString(n) + ">"
  }

  function HeadingClose(n: int): string
  {
    "</h" + IntToString(n) + ">\n"
  }

  /** What visitPre writes for a compound node. Each parenthesised piece is
      what one statement of the visit writes. */
  function PreMarkup(env: Env, c: Compound): (r: string)
  {
    match c
    case AutoList(isEnum) => if isEnum then "<ol>\n" else "<ul>\n"
    case AutoListItem => "<li>"
    case Para(_, _) => ""
    case Root => ""
    case SimpleSect(t) =>
      "<dl compact><dt><b>" + LabelText(env, SimpleSectLabel(t))
      + (if t != SimpleSectType.User then ":</b></dt><dd>" else "")
    case Title => ""
    case SimpleList => "<ul>\n"
    case SimpleListItem => "<li>"
    case Section(level, anchor, title) =>
      HeadingOpen(level + 1) + ("<a name=\"" + anchor) + env.filter(title) + ("\"</a>" + "\n")
      + HeadingClose(level + 1)
    case HtmlList(t) => if t == Ordered then "<ol>\n" else "<ul>\n"
    case HtmlListItem => "<li>\n"
    case HtmlPre => "<pre>\n"
    case HtmlDescList => "<dl>\n"
    case HtmlDescTitle => "<dt>"
    case HtmlDescData => "<dd>"
    case HtmlTable => "<table border=\"1\" cellspacing=\"3\" cellpadding=\"3\">\n"
    case HtmlRow => "<tr>\n"
    case HtmlCell(isHeading) => if isHeading then "<th>" else "<td>"
    case HtmlCaption => "<caption align=\"bottom\">"
    case IndexEntry => ""
    case Internal => ("<p><b>" + env.tr(TrForInternalUseOnly) + "</b></p>" + "\n") + ("<p>" + "\n")
    case HRef(url) => "<a href=\"" + url + "\">"
    case HtmlHeader(level) => HeadingOpen(level)
    case Image(t, name, hasCaption) =>
      if t == Html then
        ("<div align=\"center\">" + "\n")
        + ("<img src=\"" + name + "\" alt=\"" + ImageBaseName(name) + "\">" + "\n")
        + (if hasCaption then "<p><strong>" else "")
      else ""
    case DotFile(file, hasCaption) =>
      ("<div align=\"center\">" + "\n")
      + ("<img src=\"" + DotBaseName(file) + "." + env.dotImageFormat + "\" alt=\"" + DotBaseName(file) + "\">" + "\n")
      + (if hasCaption then "<p><strong>" else "")
    case Link(ref, file, anchor) => env.startLink(ref, file, anchor)
    case Ref(ref, file, anchor, hasLinkText, targetTitle) =>
      env.startLink(ref, file, anchor) + (if hasLinkText then "" else env.filter(targetTitle))
    case SecRefItem(file, anchor) =>
      "<li><a href=\"" + SecRefFileName(file, env.htmlFileExtension) + "#" + anchor + "\">"
    case SecRefList => ("<multicol cols=3>" + "\n") + ("<ul>" + "\n")
    case Language => ""
    case ParamSect(t) =>
      "<dl compact><dt><b>" + LabelText(env, ParamSectLabel(t)) + ":" + ("</b></dt><dd>" + "\n")
      + ("  <table border=\"0\" cellspacing=\"2\" cellpadding=\"0\">" + "\n")
    case ParamList(names) => ParamRowOpen + JoinComma(names) + ParamRowClose
    case XRefItem(file, anchor, title) =>
      ("<dl compact><dt><b><a class=\"el\" href=\"" + file + env.htmlFileExtension + "#" + anchor + "\">")
      + env.filter(title) + ":</a></b></dt><dd>"
    case InternalRef(file, anchor) => env.startLink("", file, anchor)
    case Copy => ""
  }

  /** The paragraph separator rule: "\n<p>\n" unless the paragraph is the
      last one or sits directly in a parameter section. */
  function ParaSeparator(isLast: bool, parent: ParentKind): string
  {
    if !isLast && parent != ParamSectParent then "\n<p>\n" else ""
  }

  /** What visitPost writes for a compound node. */
  function PostMarkup(env: Env, c: Compound): (r: string)
  {
    match c
    case AutoList(isEnum) => if isEnum then "</ol>\n" else "</ul>\n"
    case AutoListItem => "</li>"
    case Para(isLast, parent) => ParaSeparator(isLast, parent)
    case Root => ""
    case SimpleSect(_) => "</dd></dl>\n"
    case Title => "</b></dt><dd>"
    case SimpleList => "</ul>\n"
    case SimpleListItem => "</li>\n"
    case Section(_, _, _) => ""
    case HtmlList(t) => if t == Ordered then "</ol>\n" else "</ul>\n"
    case HtmlListItem => "</li>\n"
    case HtmlPre => "</pre>\n"
    case HtmlDescList => "</dl>\n"
    case HtmlDescTitle => "</dt>\n"
    case HtmlDescData => "</dd>\n"
    case HtmlTable => "</table>\n"
    case HtmlRow => "</tr>\n"
    case HtmlCell(isHeading) => if isHeading then "</th>" else "</td>"
    case HtmlCaption => "</caption>\n"
    case IndexEntry => ""
    case Internal => "</p>" + "\n"
    case HRef(_) => "</a>"
    case HtmlHeader(level) => HeadingClose(level)
    case Image(t, _, hasCaption) =>
      if t == Html then (if hasCaption then "</strong></p>" else "") + ("</div>" + "\n") else ""
    case DotFile(_, hasCaption) => (if hasCaption then "</strong></p>" + "\n" else "") + ("</div>" + "\n")
    case Link(_, _, _) => env.endLink
    case Ref(_, _, _, _, _) => env.endLink + " "
    case SecRefItem(_, _) => "</a> "
    case SecRefList => ("</ul>" + "\n") + ("</multicol>" + "\n")
    case Language => ""
    case ParamSect(_) => ("  </table>" + "\n") + ("</dl>" + "\n")
    case ParamList(_) => "</td></tr>" + "\n"
    case XRefItem(_, _, _) => "</dd></dl>" + "\n"
    case InternalRef(_, _) => env.endLink + " "
    case Copy => ""
  }

  /** The nodes whose visitPre sets m_hide and whose visitPost clears it. */
  predicate HidesChildren(c: Compound)
  {
    c.IndexEntry? || (c.Image? && c.imageType != Html)
  }

  /** The diagram rendering visitPre requests (only a dot file requests one). */
  function PreGraphs(env: Env, c: Compound): seq<GraphRequest>
  {
    if c.DotFile? then [GraphRequest(c.file, env.htmlOutput, DotBaseName(c.file))] else []
  }

  /** visitPre(c). The incoming m_hide is not consulted. */
  function Enter(env: Env, st: State, c: Compound): (r: State)
    ensures st.out <= r.out && st.graphs <= r.graphs
  {
    State(st.out + PreMarkup(env, c),
          if HidesChildren(c) then true else st.hidden,
          if c.HtmlPre? then true else st.insidePre,
          st.graphs + PreGraphs(env, c))
  }

  /** visitPost(c). The incoming m_hide is not consulted; flags are cleared,
      not restored. */
  function Leave(env: Env, st: State, c: Compound): (r: State)
    ensures st.out <= r.out && r.graphs == st.graphs
  {
    State(st.out + PostMarkup(env, c),
          if HidesChildren(c) then false else st.hidden,
          if c.HtmlPre? then false else st.insidePre,
          st.graphs)
  }

  // ---------------------------------------------------------------------------
  // The rules, stated
  // ---------------------------------------------------------------------------

  /** A whitespace leaf writes its characters verbatim inside a preformatted
      block and a single space elsewhere; nothing when hidden. */
  lemma WhiteSpaceRule(env: Env, st: State, chars: string)
    ensures st.hidden ==> VisitLeaf(env, st, WhiteSpace(chars)) == st
    ensures !st.hidden && st.insidePre ==> VisitLeaf(env, st, WhiteSpace(chars)).out == st.out + chars
    ensures !st.hidden && !st.insidePre ==> VisitLeaf(env, st, WhiteSpace(chars)).out == st.out + " "
    ensures VisitLeaf(env, st, WhiteSpace(chars)).hidden == st.hidden
    ensures VisitLeaf(env, st, WhiteSpace(chars)).insidePre == st.insidePre
  {
  }

  /** The symbol table: six codes become named entities, the accent codes
      become "&" + letter + name + ";", an unknown code writes nothing. */
  lemma SymbolRule(env: Env, st: State, code: SymbolCode, letter: char)
    requires !st.hidden
    ensures VisitLeaf(env, st, Symbol(code, letter)).out == st.out + SymbolText(code, letter)
    ensures code.Less? ==> SymbolText(code, letter) == "&lt;"
    ensures code.Greater? ==> SymbolText(code, letter) == "&gt;"
    ensures code.Amp? ==> SymbolText(code, letter) == "&amp;"
    ensures code.Copy? ==> SymbolText(code, letter) == "&copy;"
    ensures code.Szlig? ==> SymbolText(code, letter) == "&szlig;"
    ensures code.Nbsp? ==> SymbolText(code, letter) == "&nbsp;"
    ensures AccentName(code).Some? ==> SymbolText(code, letter) == "&" + [letter] + AccentName(code).value + ";"
    ensures code.Unknown? ==> VisitLeaf(env, st, Symbol(code, letter)) == st
  {
  }

  /** The include operator: what it writes does not depend on the incoming
      m_hide, and a fragment both first and last leaves m_hide false. */
  lemma IncOperatorIgnoresHide(env: Env, st: State, op: IncOp, h: bool)
    ensures IncOperatorStep(env, st.(hidden := h), op).out == IncOperatorStep(env, st, op).out
    ensures op.isFirst || op.isLast ==> IncOperatorStep(env, st.(hidden := h), op) == IncOperatorStep(env, st, op)
  {
  }

  /** Among compound nodes, only index entries and non-HTML images touch
      m_hide (set on enter, cleared on leave, whatever it was before), and
      only preformatted blocks touch m_insidePre; no other compound node
      changes either flag. (The leaf visit of a listing fragment also sets
      and clears m_hide; see IncOperatorStep.) */
  lemma FlagToggles(env: Env, st: State, c: Compound)
    ensures Enter(env, st, c).hidden == (HidesChildren(c) || st.hidden)
    ensures Leave(env, st, c).hidden == (!HidesChildren(c) && st.hidden)
    ensures Enter(env, st, c).insidePre == (c.HtmlPre? || st.insidePre)
    ensures Leave(env, st, c).insidePre == (!c.HtmlPre? && st.insidePre)
    ensures HidesChildren(c) <==> c.IndexEntry? || (c.Image? && !c.imageType.Html?)
  {
  }

  /** A hidden image writes nothing on either side. */
  lemma HiddenImageWritesNothing(env: Env, st: State, name: string, t: ImageType, hasCaption: bool)
    requires t != Html
    ensures Enter(env, st, Image(t, name, hasCaption)) == st.(hidden := true)
    ensures Leave(env, st, Image(t, name, hasCaption)) == st.(hidden := false)
  {
  }

  /** An HTML image opens a centred <img> whose alt text is the base name,
      and opens <p><strong> for its caption when it has one; m_hide is left alone. */
  lemma HtmlImageOpen(env: Env, st: State, name: string, hasCaption: bool)
    ensures Enter(env, st, Image(Html, name, hasCaption))
      == st.(out := st.out + (("<div align=\"center\">" + "\n")
                              + ("<img src=\"" + name + "\" alt=\"" + ImageBaseName(name) + "\">" + "\n")
                              + (if hasCaption then "<p><strong>" else "")))
  {
  }

  /** An HTML image closes the caption it opened, then the centred block. */
  lemma HtmlImageClose(env: Env, st: State, name: string, hasCaption: bool)
    ensures Leave(env, st, Image(Html, name, hasCaption))
      == st.(out := st.out + (if hasCaption then "</strong></p>" else "") + ("</div>" + "\n"))
  {
    Regroup2(st.out, if hasCaption then "</strong></p>" else "", "</div>" + "\n");
  }

  /** A dot file asks for one diagram, rendered into the HTML output directory
      under the file's base name, and writes a centred <img> of the rendered
      file in the configured image format; m_hide is left alone. */
  lemma DotFileOpen(env: Env, st: State, file: string, hasCaption: bool)
    ensures Enter(env, st, DotFile(file, hasCaption))
      == st.(out := st.out + (("<div align=\"center\">" + "\n")
                              + ("<img src=\"" + DotBaseName(file) + "." + env.dotImageFormat + "\" alt=\""
                                 + DotBaseName(file) + "\">" + "\n")
                              + (if hasCaption then "<p><strong>" else "")),
             graphs := st.graphs + [GraphRequest(file, env.htmlOutput, DotBaseName(file))])
  {
  }

  /** A dot file closes the caption it opened, then the centred block. */
  lemma DotFileClose(env: Env, st: State, file: string, hasCaption: bool)
    ensures Leave(env, st, DotFile(file, hasCaption))
      == st.(out := st.out + (if hasCaption then "</strong></p>" + "\n" else "") + ("</div>" + "\n"))
  {
    Regroup2(st.out, if hasCaption then "</strong></p>" + "\n" else "", "</div>" + "\n");
  }

  /** The paragraph separator is written exactly when the paragraph is not
      the last one and its parent is not a parameter section. */
  lemma ParaSeparatorRule(env: Env, st: State, isLast: bool, parent: ParentKind)
    ensures Enter(env, st, Para(isLast, parent)) == st
    ensures Leave(env, st, Para(isLast, parent)).out != st.out <==> !isLast && parent != ParamSectParent
    ensures Leave(env, st, Para(isLast, parent)).out != st.out ==> Leave(env, st, Para(isLast, parent)).out == st.out + "\n<p>\n"
  {
  }

  /** A parameter row holds the names joined by single commas, one cell for
      all of them; comma-free names can be read back from it. */
  lemma ParamListRow(env: Env, names: seq<string>)
    ensures PreMarkup(env, ParamList(names)) == ParamRowOpen + JoinComma(names) + ParamRowClose
    ensures |names| > 0 && CommaFree(names) ==> SplitComma(JoinComma(names)) == names
    ensures |names| > 0 ==> |JoinComma(names)| == TotalLength(names) + |names| - 1
  {
    JoinedRow(names);
  }

  /** A section-reference link always points into a file with the HTML
      extension, and appending the extension is idempotent. */
  lemma SecRefLink(env: Env, file: string, anchor: string)
    ensures var name := SecRefFileName(file, env.htmlFileExtension);
      PreMarkup(env, SecRefItem(file, anchor)) == "<li><a href=\"" + name + "#" + anchor + "\">"
      && EndsWith(name, env.htmlFileExtension)
      && (name == file || name == file + env.htmlFileExtension)
      && SecRefFileName(name, env.htmlFileExtension) == name
  {
  }

  /** Opening and closing tags of a section and an HTML header name the same
      level, which reads back from the tag: the section's level plus one, the
      header's own level. */
  lemma HeadingLevels(env: Env, level: int, anchor: string, title: string)
    ensures var sec := PreMarkup(env, Section(level, anchor, title));
      sec[..|HeadingOpen(level + 1)|] == HeadingOpen(level + 1)
      && sec[|sec| - |HeadingClose(level + 1)|..] == HeadingClose(level + 1)
    ensures PreMarkup(env, HtmlHeader(level)) == HeadingOpen(level)
    ensures PostMarkup(env, HtmlHeader(level)) == HeadingClose(level)
    ensures ParseInt(IntToString(level + 1)) == level + 1
    ensures ParseInt(IntToString(level)) == level
  {
    IntToStringRoundTrip(level);
    IntToStringRoundTrip(level + 1);
    var sec := PreMarkup(env, Section(level, anchor, title));
    var open, close := HeadingOpen(level + 1), HeadingClose(level + 1);
    var a, f, b := "<a name=\"" + anchor, env.filter(title), "\"</a>" + "\n";
    assert sec == open + a + f + b + close;
    Regroup4(open, a, f, b, close);
    assert sec == open + (a + f + b + close);
    assert sec[..|open|] == open;
    assert sec[|sec| - |close|..] == close;
  }

  /** The nodes whose closing markup is their opening markup with "/" after the "<". */
  predicate Mirrored(c: Compound)
  {
    c.AutoList? || c.AutoListItem? || c.SimpleList? || c.HtmlList? || c.HtmlListItem?
    || c.HtmlPre? || c.HtmlDescList? || c.HtmlRow? || c.HtmlCell?
  }

  /** Lists choose <ol>/<ul> and cells <th>/<td> once, and close what they opened. */
  lemma MirroredClose(env: Env, c: Compound)
    requires Mirrored(c)
    ensures |PreMarkup(env, c)| > 1 && PreMarkup(env, c)[0] == '<'
    ensures PostMarkup(env, c) == "</" + PreMarkup(env, c)[1..]
  {
  }
}
