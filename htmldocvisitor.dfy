/** The HTML back end for the parsed comment tree: a visitor that appends to
    one output stream and keeps two flags, m_hide (suppress leaf output) and
    m_insidePre (whitespace is preformatted). Every overload of `visit`,
    `visitPre` and `visitPost` is one method here, writing statement by
    statement as the original does, and each is proved to leave exactly the
    state that the step functions of HtmlMarkup give. */
module HtmlVisitor {
  import opened Text
  import opened DocNodes
  import opened HtmlMarkup

  class HtmlDocVisitor {
    /** The collaborators the visitor calls but does not define. */
    const env: Env
    /** The stream m_t: everything written so far. */
    var out: string
    /** m_hide */
    var hidden: bool
    /** m_insidePre */
    var insidePre: bool
    /** The diagram renderings requested so far (writeDotGraphFromFile calls). */
    var graphs: seq<GraphRequest>

    /** The visitor's fields as a value of the model's state type. */
    function AsState(): State
      reads this
    {
      State(out, hidden, insidePre, graphs)
    }

    /** HtmlDocVisitor(t, ci): nothing written, both flags false. */
    constructor (env: Env)
      ensures this.env == env
      ensures AsState() == Initial()
    {
      this.env := env;
      out := "";
      hidden := false;
      insidePre := false;
      graphs := [];
    }

    // -------------------------------------------------------------------------
    // Writing to the stream. One call writes what one statement `m_t << a << b`
    // writes; `endl` is the newline character.
    // -------------------------------------------------------------------------

    method Write(s: string)
      modifies this
      ensures out == old(out) + s
      ensures hidden == old(hidden) && insidePre == old(insidePre) && graphs == old(graphs)
    {
      out := out + s;
    }

    /** filter(s): the escaped text, written whatever m_hide is. */
    method Filter(s: string)
      modifies this
      ensures out == old(out) + env.filter(s)
      ensures hidden == old(hidden) && insidePre == old(insidePre) && graphs == old(graphs)
    {
      Write(env.filter(s));
    }

    /** startLink(ref, file, anchor) */
    method StartLink(ref: string, file: string, anchor: string)
      modifies this
      ensures out == old(out) + env.startLink(ref, file, anchor)
      ensures hidden == old(hidden) && insidePre == old(insidePre) && graphs == old(graphs)
    {
      Write(env.startLink(ref, file, anchor));
    }

    /** endLink() */
    method EndLink()
      modifies this
      ensures out == old(out) + env.endLink
      ensures hidden == old(hidden) && insidePre == old(insidePre) && graphs == old(graphs)
    {
      Write(env.endLink);
    }

    /** parseCode(m_ci, context, text, FALSE, 0): the highlighter's output
        reaches the stream through the code interface, unaffected by m_hide. */
    method ParseCode(context: string, text: string)
      modifies this
      ensures out == old(out) + env.highlight(context, text)
      ensures hidden == old(hidden) && insidePre == old(insidePre) && graphs == old(graphs)
    {
      Write(env.highlight(context, text));
    }

    /** writeDotGraphFromFile(file, outDir, baseName, BITMAP): recorded, not performed. */
    method WriteDotGraphFromFile(file: string, outDir: string, baseName: string)
      modifies this
      ensures graphs == old(graphs) + [GraphRequest(file, outDir, baseName)]
      ensures out == old(out) && hidden == old(hidden) && insidePre == old(insidePre)
    {
      graphs := graphs + [GraphRequest(file, outDir, baseName)];
    }

    // -------------------------------------------------------------------------
    // Leaf nodes: visit(...)
    // -------------------------------------------------------------------------
    method VisitWord(w: string)
      modifies this
      ensures AsState() == VisitLeaf(env, old(AsState()), Word(w))
    {
      if hidden { return; }
      Filter(w);
    }

    method VisitLinkedWord(w: string, ref: string, file: string, anchor: string)
      modifies this
      ensures AsState() == VisitLeaf(env, old(AsState()), LinkedWord(w, ref, file, anchor))
    {
      if hidden { return; }
      StartLink(ref, file, anchor);
      Filter(w);
      EndLink();
      Regroup3(old(out), env.startLink(ref, file, anchor), env.filter(w), env.endLink);
    }

    method VisitWhiteSpace(chars: string)
      modifies this
      ensures AsState() == VisitLeaf(env, old(AsState()), WhiteSpace(chars))
    {
      if hidden { return; }
      if insidePre {
        Write(chars);
      } else {
        Write(" ");
      }
    }

    /** An unknown code writes nothing (the original prints a console diagnostic). */
    method VisitSymbol(code: SymbolCode, letter: char)
      modifies this
      ensures AsState() == VisitLeaf(env, old(AsState()), Symbol(code, letter))
    {
      if hidden { return; }
      match code {
        case BSlash => Write("\\");
        case At => Write("@");
        case Less => Write("&lt;");
        case Greater => Write("&gt;");
        case Amp => Write("&amp;");
        case Dollar => Write("$");
        case Hash => Write("#");
        case Percent => Write("%");
        case Copy => Write("&copy;");
        case Apos => Write("'");
        case Quot => Write("\"");
        case Uml => Write("&" + [letter] + "uml;");
        case Acute => Write("&" + [letter] + "acute;");
        case Grave => Write("&" + [letter] + "grave;");
        case Circ => Write("&" + [letter] + "circ;");
        case Tilde => Write("&" + [letter] + "tilde;");
        case Szlig => Write("&szlig;");
        case Cedil => Write("&" + [letter] + "cedul;");
        case Ring => Write("&" + [letter] + "ring;");
        case Nbsp => Write("&nbsp;");
        case Unknown =>
      }
    }

    method VisitURL(url: string)
      modifies this
      ensures AsState() == VisitLeaf(env, old(AsState()), URL(url))
    {
      if hidden { return; }
      Write("<a href=\"" + url + "\">" + url + "</a>");
    }

    method VisitLineBreak()
      modifies this
      ensures AsState() == VisitLeaf(env, old(AsState()), LineBreak)
    {
      if hidden { return; }
      Write("<br>\n");
    }

    method VisitHorRuler()
      modifies this
      ensures AsState() == VisitLeaf(env, old(AsState()), HorRuler)
    {
      if hidden { return; }
      Write("<hr>\n");
    }

    method VisitStyleChange(style: Style, enable: bool)
      modifies this
      ensures AsState() == VisitLeaf(env, old(AsState()), StyleChange(style, enable))
    {
      if hidden { return; }
      match style {
        case Bold => if enable { Write("<b>"); } else { Write("</b> "); }
        case Italic => if enable { Write("<em>"); } else { Write("</em> "); }
        case Code => if enable { Write("<code>"); } else { Write("</code> "); }
        case Subscript => if enable { Write("<sub>"); } else { Write("</sub> "); }
        case Superscript => if enable { Write("<sup>"); } else { Write("</sup> "); }
        case Center => if enable { Write("<center>"); } else { Write("</center> "); }
        case Small => if enable { Write("<small>"); } else { Write("</small> "); }
      }
    }

    method VisitVerbatim(t: VerbatimType, context: string, text: string)
      modifies this
      ensures AsState() == VisitLeaf(env, old(AsState()), Leaf.Verbatim(t, context, text))
    {
      if hidden { return; }
      match t {
        case Code =>
          Write(FragmentOpen);
          ParseCode(context, text);
          Write(FragmentClose);
          Regroup3(old(out), FragmentOpen, env.highlight(context, text), FragmentClose);
        case Verbatim =>
          Write(FragmentOpen);
          Filter(text);
          Write(FragmentClose);
          Regroup3(old(out), FragmentOpen, env.filter(text), FragmentClose);
        case HtmlOnly =>
          Write(text);
        case LatexOnly =>
      }
    }

    /** The anchor name is not substituted: the literal `%s` is written. */
    method VisitAnchor(name: string)
      modifies this
      ensures AsState() == VisitLeaf(env, old(AsState()), Anchor(name))
    {
      if hidden { return; }
      Write("<a name=\"%s\"/></a>");
    }

    method VisitInclude(t: IncludeType, context: string, text: string)
      modifies this
      ensures AsState() == VisitLeaf(env, old(AsState()), Leaf.Include(t, context, text))
    {
      if hidden { return; }
      match t {
        case Include =>
          Write(FragmentOpen);
          ParseCode(context, text);
          Write(FragmentClose);
          Regroup3(old(out), FragmentOpen, env.highlight(context, text), FragmentClose);
        case DontInclude =>
        case HtmlInclude =>
          Write(text);
        case VerbInclude =>
          Write(FragmentOpen);
          Filter(text);
          Write(FragmentClose);
          Regroup3(old(out), FragmentOpen, env.filter(text), FragmentClose);
      }
    }

    /** The one leaf visit that ignores m_hide: it sets and clears it instead. */
    method VisitIncOperator(op: IncOp)
      modifies this
      ensures AsState() == VisitLeaf(env, old(AsState()), IncOperator(op))
    {
      if op.isFirst {
        Write(FragmentOpen);
        hidden := true;
      }
      if op.opType != Skip {
        ParseCode(op.context, op.text);
      }
      if op.isLast {
        hidden := false;
        Write(FragmentClose);
      } else {
        Write("\n");
      }
    }

    /** The alignment is the platform branch of the original. */
    method VisitFormula(name: string, text: string)
      modifies this
      ensures AsState() == VisitLeaf(env, old(AsState()), Formula(name, text))
    {
      if hidden { return; }
      var align := FormulaAlign(env.platform);
      if IsDisplayFormula(text) {
        Write("<p><center>" + "\n");
      }
      Write("<img align=");
      Write(align);
      Write(" src=\"" + name + ".png\">");
      if IsDisplayFormula(text) {
        Write("\n" + "</center><p>" + "\n");
        Regroup5(old(out), "<p><center>" + "\n", "<img align=", align, " src=\"" + name + ".png\">", "\n" + "</center><p>" + "\n");
      } else {
        Write(" ");
        Regroup4(old(out), "<img align=", align, " src=\"" + name + ".png\">", " ");
      }
    }

    // -------------------------------------------------------------------------
    // Compound nodes: visitPre(...) and visitPost(...)
    // -------------------------------------------------------------------------
    method VisitPreAutoList(isEnumList: bool)
      modifies this
      ensures AsState() == Enter(env, old(AsState()), AutoList(isEnumList))
    {
      if isEnumList { Write("<ol>\n"); } else { Write("<ul>\n"); }
    }

    method VisitPostAutoList(isEnumList: bool)
      modifies this
      ensures AsState() == Leave(env, old(AsState()), AutoList(isEnumList))
    {
      if isEnumList { Write("</ol>\n"); } else { Write("</ul>\n"); }
    }

    method VisitPreAutoListItem()
      modifies this
      ensures AsState() == Enter(env, old(AsState()), AutoListItem)
    {
      Write("<li>");
    }

    method VisitPostAutoListItem()
      modifies this
      ensures AsState() == Leave(env, old(AsState()), AutoListItem)
    {
      Write("</li>");
    }

    method VisitPrePara(isLast: bool, parent: ParentKind)
      modifies this
      ensures AsState() == Enter(env, old(AsState()), Para(isLast, parent))
    {
    }

    /** The separator is omitted after the last paragraph and inside parameter sections. */
    method VisitPostPara(isLast: bool, parent: ParentKind)
      modifies this
      ensures AsState() == Leave(env, old(AsState()), Para(isLast, parent))
    {
      if !isLast && parent != ParamSectParent {
        Write("\n<p>\n");
      }
    }

    method VisitPreRoot()
      modifies this
      ensures AsState() == Enter(env, old(AsState()), Root)
    {
    }

    method VisitPostRoot()
      modifies this
      ensures AsState() == Leave(env, old(AsState()), Root)
    {
    }

    /** The switch over section types is the table SimpleSectLabel; the types without a label write nothing there. */
    method VisitPreSimpleSect(t: SimpleSectType)
      modifies this
      ensures AsState() == Enter(env, old(AsState()), SimpleSect(t))
    {
      Write("<dl compact><dt><b>");
      Write(LabelText(env, SimpleSectLabel(t)));
      if t != SimpleSectType.User {
        Write(":</b></dt><dd>");
      }
      Regroup3(old(out), "<dl compact><dt><b>", LabelText(env, SimpleSectLabel(t)), if t != SimpleSectType.User then ":</b></dt><dd>" else "");
    }

    method VisitPostSimpleSect(t: SimpleSectType)
      modifies this
      ensures AsState() == Leave(env, old(AsState()), SimpleSect(t))
    {
      Write("</dd></dl>\n");
    }

    method VisitPreTitle()
      modifies this
      ensures AsState() == Enter(env, old(AsState()), Title)
    {
    }

    method VisitPostTitle()
      modifies this
      ensures AsState() == Leave(env, old(AsState()), Title)
    {
      Write("</b></dt><dd>");
    }

    method VisitPreSimpleList()
      modifies this
      ensures AsState() == Enter(env, old(AsState()), SimpleList)
    {
      Write("<ul>\n");
    }

    method VisitPostSimpleList()
      modifies this
      ensures AsState() == Leave(env, old(AsState()), SimpleList)
    {
      Write("</ul>\n");
    }

    method VisitPreSimpleListItem()
      modifies this
      ensures AsState() == Enter(env, old(AsState()), SimpleListItem)
    {
      Write("<li>");
    }

    method VisitPostSimpleListItem()
      modifies this
      ensures AsState() == Leave(env, old(AsState()), SimpleListItem)
    {
      Write("</li>\n");
    }

    method VisitPreSection(level: int, anchor: string, title: string)
      modifies this
      ensures AsState() == Enter(env, old(AsState()), Section(level, anchor, title))
    {
      Write("<h" + IntToString(level + 1) + ">");
      Write("<a name=\"" + anchor);
      Filter(title);
      Write("\"</a>" + "\n");
      Write("</h" + IntToString(level + 1) + ">\n");
      Regroup5(old(out), HeadingOpen(level + 1), "<a name=\"" + anchor, env.filter(title), "\"</a>" + "\n", HeadingClose(level + 1));
    }

    method VisitPostSection(level: int, anchor: string, title: string)
      modifies this
      ensures AsState() == Leave(env, old(AsState()), Section(level, anchor, title))
    {
    }

    method VisitPreHtmlList(t: HtmlListType)
      modifies this
      ensures AsState() == Enter(env, old(AsState()), HtmlList(t))
    {
      if t == Ordered { Write("<ol>\n"); } else { Write("<ul>\n"); }
    }

    method VisitPostHtmlList(t: HtmlListType)
      modifies this
      ensures AsState() == Leave(env, old(AsState()), HtmlList(t))
    {
      if t == Ordered { Write("</ol>\n"); } else { Write("</ul>\n"); }
    }

    method VisitPreHtmlListItem()
      modifies this
      ensures AsState() == Enter(env, old(AsState()), HtmlListItem)
    {
      Write("<li>\n");
    }

    method VisitPostHtmlListItem()
      modifies this
      ensures AsState() == Leave(env, old(AsState()), HtmlListItem)
    {
      Write("</li>\n");
    }

    method VisitPreHtmlPre()
      modifies this
      ensures AsState() == Enter(env, old(AsState()), HtmlPre)
    {
      Write("<pre>\n");
      insidePre := true;
    }

    method VisitPostHtmlPre()
      modifies this
      ensures AsState() == Leave(env, old(AsState()), HtmlPre)
    {
      insidePre := false;
      Write("</pre>\n");
    }

    method VisitPreHtmlDescList()
      modifies this
      ensures AsState() == Enter(env, old(AsState()), HtmlDescList)
    {
      Write("<dl>\n");
    }

    method VisitPostHtmlDescList()
      modifies this
      ensures AsState() == Leave(env, old(AsState()), HtmlDescList)
    {
      Write("</dl>\n");
    }

    method VisitPreHtmlDescTitle()
      modifies this
      ensures AsState() == Enter(env, old(AsState()), HtmlDescTitle)
    {
      Write("<dt>");
    }

    method VisitPostHtmlDescTitle()
      modifies this
      ensures AsState() == Leave(env, old(AsState()), HtmlDescTitle)
    {
      Write("</dt>\n");
    }

    method VisitPreHtmlDescData()
      modifies this
      ensures AsState() == Enter(env, old(AsState()), HtmlDescData)
    {
      Write("<dd>");
    }

    method VisitPostHtmlDescData()
      modifies this
      ensures AsState() == Leave(env, old(AsState()), HtmlDescData)
    {
      Write("</dd>\n");
    }

    method VisitPreHtmlTable()
      modifies this
      ensures AsState() == Enter(env, old(AsState()), HtmlTable)
    {
      Write("<table border=\"1\" cellspacing=\"3\" cellpadding=\"3\">\n");
    }

    method VisitPostHtmlTable()
      modifies this
      ensures AsState() == Leave(env, old(AsState()), HtmlTable)
    {
      Write("</table>\n");
    }

    method VisitPreHtmlRow()
      modifies this
      ensures AsState() == Enter(env, old(AsState()), HtmlRow)
    {
      Write("<tr>\n");
    }

    method VisitPostHtmlRow()
      modifies this
      ensures AsState() == Leave(env, old(AsState()), HtmlRow)
    {
      Write("</tr>\n");
    }

    method VisitPreHtmlCell(isHeading: bool)
      modifies this
      ensures AsState() == Enter(env, old(AsState()), HtmlCell(isHeading))
    {
      if isHeading { Write("<th>"); } else { Write("<td>"); }
    }

    method VisitPostHtmlCell(isHeading: bool)
      modifies this
      ensures AsState() == Leave(env, old(AsState()), HtmlCell(isHeading))
    {
      if isHeading { Write("</th>"); } else { Write("</td>"); }
    }

    method VisitPreHtmlCaption()
      modifies this
      ensures AsState() == Enter(env, old(AsState()), HtmlCaption)
    {
      Write("<caption align=\"bottom\">");
    }

    method VisitPostHtmlCaption()
      modifies this
      ensures AsState() == Leave(env, old(AsState()), HtmlCaption)
    {
      Write("</caption>\n");
    }

    method VisitPreIndexEntry()
      modifies this
      ensures AsState() == Enter(env, old(AsState()), IndexEntry)
    {
      hidden := true;
    }

    method VisitPostIndexEntry()
      modifies this
      ensures AsState() == Leave(env, old(AsState()), IndexEntry)
    {
      hidden := false;
    }

    method VisitPreInternal()
      modifies this
      ensures AsState() == Enter(env, old(AsState()), Internal)
    {
      Write("<p><b>" + env.tr(TrForInternalUseOnly) + "</b></p>" + "\n");
      Write("<p>" + "\n");
      Regroup2(old(out), "<p><b>" + env.tr(TrForInternalUseOnly) + "</b></p>" + "\n", "<p>" + "\n");
    }

    method VisitPostInternal()
      modifies this
      ensures AsState() == Leave(env, old(AsState()), Internal)
    {
      Write("</p>" + "\n");
    }

    method VisitPreHRef(url: string)
      modifies this
      ensures AsState() == Enter(env, old(AsState()), HRef(url))
    {
      Write("<a href=\"" + url + "\">");
    }

    method VisitPostHRef(url: string)
      modifies this
      ensures AsState() == Leave(env, old(AsState()), HRef(url))
    {
      Write("</a>");
    }

    method VisitPreHtmlHeader(level: int)
      modifies this
      ensures AsState() == Enter(env, old(AsState()), HtmlHeader(level))
    {
      Write("<h" + IntToString(level) + ">");
    }

    method VisitPostHtmlHeader(level: int)
      modifies this
      ensures AsState() == Leave(env, old(AsState()), HtmlHeader(level))
    {
      Write("</h" + IntToString(level) + ">\n");
    }

    /** An HTML image writes a centred <img> whose alt text is its base name; any other format writes nothing and hides its subtree. */
    method VisitPreImage(t: ImageType, name: string, hasCaption: bool)
      modifies this
      ensures AsState() == Enter(env, old(AsState()), Image(t, name, hasCaption))
    {
      if t == Html {
        var baseName := CutImageName(name);
        Write("<div align=\"center\">" + "\n");
        Write("<img src=\"" + name + "\" alt=\"" + baseName + "\">" + "\n");
        if hasCaption {
          Write("<p><strong>");
        }
        Regroup3(old(out), "<div align=\"center\">" + "\n", "<img src=\"" + name + "\" alt=\"" + baseName + "\">" + "\n",
                 if hasCaption then "<p><strong>" else "");
        HtmlImageOpen(env, old(AsState()), name, hasCaption);
      } else {
        hidden := true;
        HiddenImageWritesNothing(env, old(AsState()), name, t, hasCaption);
      }
    }

    /** The base-name computation of visitPre(DocImage*): cut after the last
        '/', or when there is none after the last '\\'. */
    method CutImageName(name: string) returns (baseName: string)
      ensures baseName == ImageBaseName(name)
    {
      baseName := name;
      var i := LastIndexOf(baseName, '/');
      if i == -1 {
        i := LastIndexOf(baseName, '\\');
      }
      assert i == if LastIndexOf(name, '/') != -1 then LastIndexOf(name, '/') else LastIndexOf(name, '\\');
      if i != -1 {
        RightAfter(baseName, i);
        baseName := Right(baseName, |baseName| - i - 1);
        assert baseName == name[i + 1..];
      }
    }

    /** The base-name computation of visitPre(DocDotFile*): cut after the last '/'. */
    method CutDotFileName(file: string) returns (baseName: string)
      ensures baseName == DotBaseName(file)
    {
      baseName := file;
      var i := LastIndexOf(baseName, '/');
      if i != -1 {
        RightAfter(baseName, i);
        baseName := Right(baseName, |baseName| - i - 1);
        assert baseName == file[i + 1..];
      }
    }

    method VisitPostImage(t: ImageType, name: string, hasCaption: bool)
      modifies this
      ensures AsState() == Leave(env, old(AsState()), Image(t, name, hasCaption))
    {
      if t == Html {
        if hasCaption {
          Write("</strong></p>");
        }
        Write("</div>" + "\n");
        HtmlImageClose(env, old(AsState()), name, hasCaption);
      } else {
        hidden := false;
        HiddenImageWritesNothing(env, old(AsState()), name, t, hasCaption);
      }
    }

    /** A dot file asks for its diagram to be rendered into the HTML output directory, then writes a centred <img> of the rendered file. */
    method VisitPreDotFile(file: string, hasCaption: bool)
      modifies this
      ensures AsState() == Enter(env, old(AsState()), DotFile(file, hasCaption))
    {
      var baseName := CutDotFileName(file);
      var outDir := env.htmlOutput;
      WriteDotGraphFromFile(file, outDir, baseName);
      Write("<div align=\"center\">" + "\n");
      Write("<img src=\"" + baseName + "." + env.dotImageFormat + "\" alt=\"" + baseName + "\">" + "\n");
      if hasCaption {
        Write("<p><strong>");
      }
      Regroup3(old(out), "<div align=\"center\">" + "\n",
               "<img src=\"" + baseName + "." + env.dotImageFormat + "\" alt=\"" + baseName + "\">" + "\n",
               if hasCaption then "<p><strong>" else "");
      DotFileOpen(env, old(AsState()), file, hasCaption);
    }

    method VisitPostDotFile(file: string, hasCaption: bool)
      modifies this
      ensures AsState() == Leave(env, old(AsState()), DotFile(file, hasCaption))
    {
      if hasCaption {
        Write("</strong></p>" + "\n");
      }
      Write("</div>" + "\n");
      DotFileClose(env, old(AsState()), file, hasCaption);
    }

    method VisitPreLink(ref: string, file: string, anchor: string)
      modifies this
      ensures AsState() == Enter(env, old(AsState()), Link(ref, file, anchor))
    {
      StartLink(ref, file, anchor);
    }

    method VisitPostLink(ref: string, file: string, anchor: string)
      modifies this
      ensures AsState() == Leave(env, old(AsState()), Link(ref, file, anchor))
    {
      EndLink();
    }

    method VisitPreRef(ref: string, file: string, anchor: string, hasLinkText: bool, targetTitle: string)
      modifies this
      ensures AsState() == Enter(env, old(AsState()), Ref(ref, file, anchor, hasLinkText, targetTitle))
    {
      StartLink(ref, file, anchor);
      if !hasLinkText {
        Filter(targetTitle);
      }
      Regroup2(old(out), env.startLink(ref, file, anchor), if hasLinkText then "" else env.filter(targetTitle));
    }

    method VisitPostRef(ref: string, file: string, anchor: string, hasLinkText: bool, targetTitle: string)
      modifies this
      ensures AsState() == Leave(env, old(AsState()), Ref(ref, file, anchor, hasLinkText, targetTitle))
    {
      EndLink();
      Write(" ");
      Regroup2(old(out), env.endLink, " ");
    }

    method VisitPreSecRefItem(file: string, anchor: string)
      modifies this
      ensures AsState() == Enter(env, old(AsState()), SecRefItem(file, anchor))
    {
      var refName := AddHtmlExtension(file);
      Write("<li><a href=\"" + refName + "#" + anchor + "\">");
      SecRefLink(env, file, anchor);
    }

    /** The link-target computation of visitPre(DocSecRefItem*): append the
        HTML file extension unless the name already ends with it. */
    method AddHtmlExtension(file: string) returns (refName: string)
      ensures refName == SecRefFileName(file, env.htmlFileExtension)
    {
      refName := file;
      if Right(refName, |env.htmlFileExtension|) != env.htmlFileExtension {
        refName := refName + env.htmlFileExtension;
      }
    }

    method VisitPostSecRefItem(file: string, anchor: string)
      modifies this
      ensures AsState() == Leave(env, old(AsState()), SecRefItem(file, anchor))
    {
      Write("</a> ");
    }

    method VisitPreSecRefList()
      modifies this
      ensures AsState() == Enter(env, old(AsState()), SecRefList)
    {
      Write("<multicol cols=3>" + "\n");
      Write("<ul>" + "\n");
      Regroup2(old(out), "<multicol cols=3>" + "\n", "<ul>" + "\n");
    }

    method VisitPostSecRefList()
      modifies this
      ensures AsState() == Leave(env, old(AsState()), SecRefList)
    {
      Write("</ul>" + "\n");
      Write("</multicol>" + "\n");
      Regroup2(old(out), "</ul>" + "\n", "</multicol>" + "\n");
    }

    method VisitPreLanguage()
      modifies this
      ensures AsState() == Enter(env, old(AsState()), Language)
    {
    }

    method VisitPostLanguage()
      modifies this
      ensures AsState() == Leave(env, old(AsState()), Language)
    {
    }

    /** The switch over parameter types is the table ParamSectLabel; an unknown type, where the original asserts, writes no label. */
    method VisitPreParamSect(t: ParamSectType)
      modifies this
      ensures AsState() == Enter(env, old(AsState()), ParamSect(t))
    {
      Write("<dl compact><dt><b>");
      Write(LabelText(env, ParamSectLabel(t)));
      Write(":");
      Write("</b></dt><dd>" + "\n");
      Write("  <table border=\"0\" cellspacing=\"2\" cellpadding=\"0\">" + "\n");
      Regroup5(old(out), "<dl compact><dt><b>", LabelText(env, ParamSectLabel(t)), ":", "</b></dt><dd>" + "\n",
               "  <table border=\"0\" cellspacing=\"2\" cellpadding=\"0\">" + "\n");
    }

    method VisitPostParamSect(t: ParamSectType)
      modifies this
      ensures AsState() == Leave(env, old(AsState()), ParamSect(t))
    {
      Write("  </table>" + "\n");
      Write("</dl>" + "\n");
      Regroup2(old(out), "  </table>" + "\n", "</dl>" + "\n");
    }

    /** The names of one row, a comma before every name but the first. */
    method VisitPreParamList(names: seq<string>)
      modifies this
      ensures AsState() == Enter(env, old(AsState()), ParamList(names))
    {
      Write(ParamRowOpen);
      ghost var prefix := out;
      var first := true;
      var i := 0;
      while i < |names|
        invariant 0 <= i <= |names|
        invariant first == (i == 0)
        invariant out == prefix + JoinComma(names[..i])
        invariant hidden == old(hidden) && insidePre == old(insidePre) && graphs == old(graphs)
      {
        JoinCommaSnoc(names, i);
        if !first {
          Write(",");
          Write(names[i]);
          Regroup3(prefix, JoinComma(names[..i]), ",", names[i]);
        } else {
          first := false;
          Write(names[i]);
        }
        i := i + 1;
      }
      assert names[..i] == names;
      Write(ParamRowClose);
      Regroup3(old(out), ParamRowOpen, JoinComma(names), ParamRowClose);
    }

    method VisitPostParamList(names: seq<string>)
      modifies this
      ensures AsState() == Leave(env, old(AsState()), ParamList(names))
    {
      Write("</td></tr>" + "\n");
    }

    method VisitPreXRefItem(file: string, anchor: string, title: string)
      modifies this
      ensures AsState() == Enter(env, old(AsState()), XRefItem(file, anchor, title))
    {
      Write("<dl compact><dt><b><a class=\"el\" href=\"" + file + env.htmlFileExtension + "#" + anchor + "\">");
      Filter(title);
      Write(":</a></b></dt><dd>");
      Regroup3(old(out), "<dl compact><dt><b><a class=\"el\" href=\"" + file + env.htmlFileExtension + "#" + anchor + "\">",
               env.filter(title), ":</a></b></dt><dd>");
    }

    method VisitPostXRefItem(file: string, anchor: string, title: string)
      modifies this
      ensures AsState() == Leave(env, old(AsState()), XRefItem(file, anchor, title))
    {
      Write("</dd></dl>" + "\n");
    }

    /** The original passes a null reference name, modelled as the empty one. */
    method VisitPreInternalRef(file: string, anchor: string)
      modifies this
      ensures AsState() == Enter(env, old(AsState()), InternalRef(file, anchor))
    {
      StartLink("", file, anchor);
    }

    method VisitPostInternalRef(file: string, anchor: string)
      modifies this
      ensures AsState() == Leave(env, old(AsState()), InternalRef(file, anchor))
    {
      EndLink();
      Write(" ");
      Regroup2(old(out), env.endLink, " ");
    }

    method VisitPreCopy()
      modifies this
      ensures AsState() == Enter(env, old(AsState()), Compound.Copy)
    {
    }

    method VisitPostCopy()
      modifies this
      ensures AsState() == Leave(env, old(AsState()), Compound.Copy)
    {
    }
  }
}
