/** The node payloads the HTML visitor reads: one constructor per node class
    it has a `visit` overload for (leaves) or a `visitPre`/`visitPost` pair
    for (compound nodes). Each constructor carries exactly the accessors the
    visitor calls on that node, except the anchor's name, which is kept
    although visit(DocAnchor*) never reads it; the node classes themselves
    belong to the parser and are not part of this model. */
module DocNodes {

  /** DocSymbol::SymType. `Unknown` stands for every code the visitor has no case for. */
  datatype SymbolCode =
    | Unknown | BSlash | At | Less | Greater | Amp | Dollar | Hash | Percent
    | Copy | Apos | Quot | Uml | Acute | Grave | Circ | Tilde | Szlig | Cedil | Ring | Nbsp

  /** DocStyleChange::Style */
  datatype Style = Bold | Italic | Code | Subscript | Superscript | Center | Small

  /** DocVerbatim::Type */
  datatype VerbatimType = Code | Verbatim | HtmlOnly | LatexOnly

  /** DocInclude::Type */
  datatype IncludeType = Include | DontInclude | HtmlInclude | VerbInclude

  /** DocIncOperator::Type */
  datatype IncOpType = Line | SkipLine | Skip | Until

  /** DocSimpleSect::Type */
  datatype SimpleSectType =
    | See | Return | Author | Authors | Version | Since | Date | Note | Warning
    | Pre | Post | Invar | Remark | Attention | User | Unknown

  /** DocParamSect::Type; `Unknown` is the value the visitor reaches its ASSERT(0) on. */
  datatype ParamSectType = Param | RetVal | Exception | Unknown

  /** DocImage::Type */
  datatype ImageType = Html | Latex | Rtf

  /** DocHtmlList::Type */
  datatype HtmlListType = Unordered | Ordered

  /** What `p->parent()` of a paragraph is, as far as the visitor asks: none,
      a node of kind Kind_ParamSect, or a node of some other kind. */
  datatype ParentKind = NoParent | ParamSectParent | OtherParent

  /** One fragment of a \skip/\until/\line listing (DocIncOperator). */
  datatype IncOp = IncOp(opType: IncOpType, isFirst: bool, isLast: bool, context: string, text: string)

  /** Leaf nodes: the overloads of `visit`. */
  datatype Leaf =
    | Word(word: string)
    | LinkedWord(word: string, ref: string, file: string, anchor: string)
    | WhiteSpace(chars: string)
    | Symbol(symbol: SymbolCode, letter: char)
    | URL(url: string)
    | LineBreak
    | HorRuler
    | StyleChange(style: Style, enable: bool)
    | Verbatim(verbatimType: VerbatimType, context: string, text: string)
    | Anchor(name: string)
    | Include(includeType: IncludeType, context: string, text: string)
    | IncOperator(op: IncOp)
    | Formula(name: string, text: string)

  /** Compound nodes: the overloads of `visitPre` and `visitPost`. */
  datatype Compound =
    | AutoList(isEnumList: bool)
    | AutoListItem
    | Para(isLast: bool, parent: ParentKind)
    | Root
    | SimpleSect(sectType: SimpleSectType)
    | Title
    | SimpleList
    | SimpleListItem
    | Section(level: int, anchor: string, title: string)
    | HtmlList(listType: HtmlListType)
    | HtmlListItem
    | HtmlPre
    | HtmlDescList
    | HtmlDescTitle
    | HtmlDescData
    | HtmlTable
    | HtmlRow
    | HtmlCell(isHeading: bool)
    | HtmlCaption
    | IndexEntry
    | Internal
    | HRef(url: string)
    | HtmlHeader(level: int)
    | Image(imageType: ImageType, name: string, hasCaption: bool)
    | DotFile(file: string, hasCaption: bool)
    | Link(ref: string, file: string, anchor: string)
    | Ref(ref: string, file: string, anchor: string, hasLinkText: bool, targetTitle: string)
    | SecRefItem(file: string, anchor: string)
    | SecRefList
    | Language
    | ParamSect(paramType: ParamSectType)
    | ParamList(parameters: seq<string>)
    | XRefItem(file: string, anchor: string, title: string)
    | InternalRef(file: string, anchor: string)
    | Copy
}
