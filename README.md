# HTML documentation visitor

This project models doxygen's HTML back end for parsed documentation
comments: the class `HtmlDocVisitor` in `src/htmldocvisitor.h`. The
visitor walks a tree of documentation nodes. For each leaf it has one
`visit` overload. For each compound node it has a `visitPre`/`visitPost`
pair. Every overload appends HTML to one output stream (`m_t`) and may set
or clear two flags:

- `m_hide`: leaf output is suppressed;
- `m_insidePre`: whitespace is written verbatim.

The model has four modules:

- `DocNodes` (docnodes.dfy) holds the node payloads. Each payload carries
  the accessors the visitor reads on that node. The one exception is the
  anchor's name, which the visitor never reads.
- `HtmlMarkup` (htmlmarkup.dfy) gives each visit as a pure step function
  over the visitor's state. `VisitLeaf` covers `visit`, and `Enter`/`Leave`
  cover `visitPre`/`visitPost`. The module also states the rendering rules
  as lemmas:
  - the symbol table;
  - the whitespace rule;
  - the flag toggles;
  - the paragraph separator;
  - the parameter-row join;
  - the section-reference link;
  - image and dot-file base names;
  - heading levels.
- `HtmlVisitor` (htmldocvisitor.dfy) is the class itself. It has the fields
  `out` (the stream), `hidden` (`m_hide`), `insidePre` (`m_insidePre`) and
  `graphs` (the diagram renderings requested). Each overload is one method.
  It writes statement by statement as the original does, uses the same
  loop for the parameter list, and is proved to leave exactly the state
  that the step function gives.
- `Traversal` (traversal.dfy) adds a document tree and the depth-first
  walk that the visitor's base class drives. It states what follows at
  tree level:
  - a hidden subtree still writes its structural tags;
  - nested hiding is cleared, not restored;
  - a multi-fragment `\skip`/`\until` listing opens and closes its block
    exactly once.

`Text` (text.dfy) holds the `QCString` operations the visitor uses, each
with its inverse or its characterisation:

- `findRev`, `right` and suffix tests;
- the decimal rendering of an integer heading level;
- the comma-joined parameter names.

Collaborators the visitor calls but does not define are fields of `Env`:
`filter`, `startLink`, `endLink`, the code highlighter behind `parseCode`,
the translator, the HTML file extension, two configuration values and the
platform.

Where the code and its design intent differ, the model follows the code:

- `visitPre`/`visitPost` of compound nodes never consult `m_hide`. A
  hidden subtree still writes its lists, tables and links. Only leaf
  visits are suppressed (`Traversal.HiddenStructureStillWritten`).
- The flags are set on the way in and cleared on the way out, never saved
  and restored. An index entry inside a non-HTML image un-hides the rest
  of the image (`Traversal.NestedHideNotRestored`). A `<pre>` block leaves
  `m_insidePre` false (`Traversal.PreformattedWhitespace`).
- `visit(DocIncOperator*)` is the one leaf visit that ignores `m_hide`.
- Several outputs are kept exactly as the code writes them:
  - the cedilla is written as `&Xcedul;`;
  - an anchor writes the literal `<a name="%s"/></a>`;
  - a section's anchor tag is written as `<a name="` + anchor + filtered
    title + `"</a>`;
  - an unknown symbol code writes nothing.

## Model

| member | source | states |
|---|---|---|
| HtmlVisitor.HtmlDocVisitor.constructor | src/htmldocvisitor.h:34-35 | A new visitor has written nothing, has both flags false and has requested no diagram. |
| HtmlVisitor.HtmlDocVisitor.Write | src/htmldocvisitor.h:679 | Writing to the stream appends to it and changes nothing else. |
| HtmlVisitor.HtmlDocVisitor.Filter | src/htmldocvisitor.h:670 | filter appends the escaped text whatever m_hide is, and leaves both flags alone. |
| HtmlVisitor.HtmlDocVisitor.StartLink | src/htmldocvisitor.h:671-672 | startLink appends the collaborator's link opening for (ref, file, anchor) and leaves both flags alone. |
| HtmlVisitor.HtmlDocVisitor.EndLink | src/htmldocvisitor.h:673 | endLink appends the collaborator's link closing and leaves both flags alone. |
| HtmlVisitor.HtmlDocVisitor.ParseCode | src/htmldocvisitor.h:198 | The highlighted code reaches the stream even while m_hide is set, and the flags stay as they were. |
| HtmlVisitor.HtmlDocVisitor.WriteDotGraphFromFile | src/htmldocvisitor.h:531 | A diagram request is recorded with its file, output directory and base name, and nothing is written to the stream. |
| HtmlVisitor.HtmlDocVisitor.VisitWord | src/htmldocvisitor.h:41-45 | A word writes its escaped text, and writes nothing while hidden. |
| HtmlVisitor.HtmlDocVisitor.VisitLinkedWord | src/htmldocvisitor.h:46-52 | A linked word writes the link opening, the escaped word and the link closing, and writes nothing while hidden. |
| HtmlVisitor.HtmlDocVisitor.VisitWhiteSpace | src/htmldocvisitor.h:53-64 | Whitespace is written verbatim inside a preformatted block and as a single space elsewhere. Nothing is written while hidden. |
| HtmlVisitor.HtmlDocVisitor.VisitSymbol | src/htmldocvisitor.h:65-93 | A symbol writes its entry of the symbol table: the entity, the literal, or the accented letter. An unknown code writes nothing. Nothing is written while hidden. |
| HtmlVisitor.HtmlDocVisitor.VisitURL | src/htmldocvisitor.h:94-98 | A URL becomes an anchor that links to and shows the URL, unless hidden. |
| HtmlVisitor.HtmlDocVisitor.VisitLineBreak | src/htmldocvisitor.h:99-103 | A line break writes <br> and a newline, unless hidden. |
| HtmlVisitor.HtmlDocVisitor.VisitHorRuler | src/htmldocvisitor.h:104-108 | A ruler writes <hr> and a newline, unless hidden. |
| HtmlVisitor.HtmlDocVisitor.VisitStyleChange | src/htmldocvisitor.h:109-136 | Enabling a style opens its tag. Disabling it closes the same tag and adds a space. Nothing is written while hidden. |
| HtmlVisitor.HtmlDocVisitor.VisitVerbatim | src/htmldocvisitor.h:137-159 | Code is highlighted and verbatim text escaped, each inside a fragment block. HTML-only text is copied and LaTeX-only text dropped. Nothing is written while hidden. |
| HtmlVisitor.HtmlDocVisitor.VisitAnchor | src/htmldocvisitor.h:160-164 | An anchor writes the fixed tag with the literal %s, whatever its name, unless hidden. |
| HtmlVisitor.HtmlDocVisitor.VisitInclude | src/htmldocvisitor.h:165-186 | An include highlights its text in a fragment block, a verbatim include escapes it there, an HTML include copies it and a dontinclude writes nothing. Nothing is written while hidden. |
| HtmlVisitor.HtmlDocVisitor.VisitIncOperator | src/htmldocvisitor.h:187-209 | A listing fragment follows the open/hide, highlight unless skipped, then close/unhide or newline protocol, whatever m_hide was. |
| HtmlVisitor.HtmlDocVisitor.VisitFormula | src/htmldocvisitor.h:210-227 | A formula image is aligned by platform. A display formula is centred in its own paragraph and an inline one is followed by a space. Nothing is written while hidden. |
| HtmlVisitor.HtmlDocVisitor.VisitPreAutoList | src/htmldocvisitor.h:233-243 | An enumerated list opens <ol> and any other list opens <ul>. The flags do not change. |
| HtmlVisitor.HtmlDocVisitor.VisitPostAutoList | src/htmldocvisitor.h:244-254 | The auto list closes the tag its enumeration flag chose. |
| HtmlVisitor.HtmlDocVisitor.VisitPreAutoListItem | src/htmldocvisitor.h:255-258 | An auto list item opens <li>, even while hidden. |
| HtmlVisitor.HtmlDocVisitor.VisitPostAutoListItem | src/htmldocvisitor.h:259-262 | An auto list item closes </li>. |
| HtmlVisitor.HtmlDocVisitor.VisitPrePara | src/htmldocvisitor.h:263-265 | Entering a paragraph changes nothing. |
| HtmlVisitor.HtmlDocVisitor.VisitPostPara | src/htmldocvisitor.h:266-273 | A paragraph writes the separator unless it is its parent's last or its parent is a parameter section. |
| HtmlVisitor.HtmlDocVisitor.VisitPreRoot | src/htmldocvisitor.h:274-277 | The root writes nothing on entry. |
| HtmlVisitor.HtmlDocVisitor.VisitPostRoot | src/htmldocvisitor.h:278-281 | The root writes nothing on exit. |
| HtmlVisitor.HtmlDocVisitor.VisitPreSimpleSect | src/htmldocvisitor.h:282-324 | A simple section opens a definition list with its translated label. The label and colon are left out for a user-titled section, and the label alone for an unknown one. |
| HtmlVisitor.HtmlDocVisitor.VisitPostSimpleSect | src/htmldocvisitor.h:325-328 | A simple section closes its definition. |
| HtmlVisitor.HtmlDocVisitor.VisitPreTitle | src/htmldocvisitor.h:329-331 | A title writes nothing on entry. |
| HtmlVisitor.HtmlDocVisitor.VisitPostTitle | src/htmldocvisitor.h:332-335 | A title ends the bold term and opens the definition. |
| HtmlVisitor.HtmlDocVisitor.VisitPreSimpleList | src/htmldocvisitor.h:336-339 | A simple list opens <ul>. |
| HtmlVisitor.HtmlDocVisitor.VisitPostSimpleList | src/htmldocvisitor.h:340-343 | A simple list closes </ul>. |
| HtmlVisitor.HtmlDocVisitor.VisitPreSimpleListItem | src/htmldocvisitor.h:344-347 | A simple list item opens <li>. |
| HtmlVisitor.HtmlDocVisitor.VisitPostSimpleListItem | src/htmldocvisitor.h:348-351 | A simple list item closes </li> and a newline. |
| HtmlVisitor.HtmlDocVisitor.VisitPreSection | src/htmldocvisitor.h:352-359 | A section writes one complete heading of level+1, holding its anchor and escaped title. |
| HtmlVisitor.HtmlDocVisitor.VisitPostSection | src/htmldocvisitor.h:360-362 | A section writes nothing on exit. |
| HtmlVisitor.HtmlDocVisitor.VisitPreHtmlList | src/htmldocvisitor.h:363-369 | An ordered HTML list opens <ol> and an unordered one opens <ul>. |
| HtmlVisitor.HtmlDocVisitor.VisitPostHtmlList | src/htmldocvisitor.h:370-376 | An HTML list closes the tag its type chose. |
| HtmlVisitor.HtmlDocVisitor.VisitPreHtmlListItem | src/htmldocvisitor.h:377-380 | An HTML list item opens <li>. |
| HtmlVisitor.HtmlDocVisitor.VisitPostHtmlListItem | src/htmldocvisitor.h:381-384 | An HTML list item closes </li>. |
| HtmlVisitor.HtmlDocVisitor.VisitPreHtmlPre | src/htmldocvisitor.h:385-389 | A preformatted block opens <pre> and sets m_insidePre. |
| HtmlVisitor.HtmlDocVisitor.VisitPostHtmlPre | src/htmldocvisitor.h:390-394 | A preformatted block clears m_insidePre and closes </pre>. |
| HtmlVisitor.HtmlDocVisitor.VisitPreHtmlDescList | src/htmldocvisitor.h:395-398 | A description list opens <dl>. |
| HtmlVisitor.HtmlDocVisitor.VisitPostHtmlDescList | src/htmldocvisitor.h:399-402 | A description list closes </dl>. |
| HtmlVisitor.HtmlDocVisitor.VisitPreHtmlDescTitle | src/htmldocvisitor.h:403-406 | A description term opens <dt>. |
| HtmlVisitor.HtmlDocVisitor.VisitPostHtmlDescTitle | src/htmldocvisitor.h:407-410 | A description term closes </dt>. |
| HtmlVisitor.HtmlDocVisitor.VisitPreHtmlDescData | src/htmldocvisitor.h:411-414 | A description opens <dd>. |
| HtmlVisitor.HtmlDocVisitor.VisitPostHtmlDescData | src/htmldocvisitor.h:415-418 | A description closes </dd>. |
| HtmlVisitor.HtmlDocVisitor.VisitPreHtmlTable | src/htmldocvisitor.h:419-422 | A table opens with a fixed border and spacing. |
| HtmlVisitor.HtmlDocVisitor.VisitPostHtmlTable | src/htmldocvisitor.h:423-426 | A table closes </table>. |
| HtmlVisitor.HtmlDocVisitor.VisitPreHtmlRow | src/htmldocvisitor.h:427-430 | A row opens <tr>. |
| HtmlVisitor.HtmlDocVisitor.VisitPostHtmlRow | src/htmldocvisitor.h:431-434 | A row closes </tr>. |
| HtmlVisitor.HtmlDocVisitor.VisitPreHtmlCell | src/htmldocvisitor.h:435-438 | A heading cell opens <th> and any other cell opens <td>. |
| HtmlVisitor.HtmlDocVisitor.VisitPostHtmlCell | src/htmldocvisitor.h:439-442 | A cell closes the tag its heading flag chose. |
| HtmlVisitor.HtmlDocVisitor.VisitPreHtmlCaption | src/htmldocvisitor.h:443-446 | A caption opens a bottom-aligned caption. |
| HtmlVisitor.HtmlDocVisitor.VisitPostHtmlCaption | src/htmldocvisitor.h:447-450 | A caption closes </caption>. |
| HtmlVisitor.HtmlDocVisitor.VisitPreIndexEntry | src/htmldocvisitor.h:451-454 | An index entry sets m_hide and writes nothing. |
| HtmlVisitor.HtmlDocVisitor.VisitPostIndexEntry | src/htmldocvisitor.h:455-458 | An index entry clears m_hide, whatever it was before the entry. |
| HtmlVisitor.HtmlDocVisitor.VisitPreInternal | src/htmldocvisitor.h:459-463 | An internal section writes the translated "for internal use only" notice and opens a paragraph. |
| HtmlVisitor.HtmlDocVisitor.VisitPostInternal | src/htmldocvisitor.h:464-467 | An internal section closes its paragraph. |
| HtmlVisitor.HtmlDocVisitor.VisitPreHRef | src/htmldocvisitor.h:468-471 | A hyperlink opens an anchor to its URL. |
| HtmlVisitor.HtmlDocVisitor.VisitPostHRef | src/htmldocvisitor.h:472-475 | A hyperlink closes </a>. |
| HtmlVisitor.HtmlDocVisitor.VisitPreHtmlHeader | src/htmldocvisitor.h:476-479 | An HTML header opens a heading tag of its own level. |
| HtmlVisitor.HtmlDocVisitor.VisitPostHtmlHeader | src/htmldocvisitor.h:480-483 | An HTML header closes a heading tag of the same level. |
| HtmlVisitor.HtmlDocVisitor.VisitPreImage | src/htmldocvisitor.h:484-506 | An HTML image writes a centred <img> whose alt text is its base name, and opens a caption when it has one. Any other format writes nothing and sets m_hide. |
| HtmlVisitor.HtmlDocVisitor.CutImageName | src/htmldocvisitor.h:488-493 | The computed base name is the image name after its last '/', or after its last '\\' when there is no '/'. |
| HtmlVisitor.HtmlDocVisitor.VisitPostImage | src/htmldocvisitor.h:507-521 | An HTML image closes its caption if any and its centred block. Any other format clears m_hide and writes nothing. |
| HtmlVisitor.HtmlDocVisitor.CutDotFileName | src/htmldocvisitor.h:524-529 | The computed base name is the dot file name after its last '/'. |
| HtmlVisitor.HtmlDocVisitor.VisitPreDotFile | src/htmldocvisitor.h:522-540 | A dot file asks for its diagram to be rendered into the HTML output directory under its base name. It then writes a centred image of the rendering in the configured format, with an open caption if it has one. This happens even while hidden. |
| HtmlVisitor.HtmlDocVisitor.VisitPostDotFile | src/htmldocvisitor.h:541-548 | A dot file closes its caption if any, then its centred block. |
| HtmlVisitor.HtmlDocVisitor.VisitPreLink | src/htmldocvisitor.h:549-552 | A link opens a link to its target. |
| HtmlVisitor.HtmlDocVisitor.VisitPostLink | src/htmldocvisitor.h:553-556 | A link closes the link. |
| HtmlVisitor.HtmlDocVisitor.VisitPreRef | src/htmldocvisitor.h:557-561 | A reference opens a link. Without link text, it shows the target's escaped title. |
| HtmlVisitor.HtmlDocVisitor.VisitPostRef | src/htmldocvisitor.h:562-566 | A reference closes the link and writes a space. |
| HtmlVisitor.HtmlDocVisitor.VisitPreSecRefItem | src/htmldocvisitor.h:567-576 | A section-reference item opens a list item linking to the anchor in a file that carries the HTML extension. |
| HtmlVisitor.HtmlDocVisitor.AddHtmlExtension | src/htmldocvisitor.h:569-573 | The link target is the file name with the HTML extension appended exactly when it does not already end with it. |
| HtmlVisitor.HtmlDocVisitor.VisitPostSecRefItem | src/htmldocvisitor.h:577-580 | A section-reference item closes its link and writes a space. |
| HtmlVisitor.HtmlDocVisitor.VisitPreSecRefList | src/htmldocvisitor.h:581-585 | A section-reference list opens a three-column block and a list. |
| HtmlVisitor.HtmlDocVisitor.VisitPostSecRefList | src/htmldocvisitor.h:586-590 | A section-reference list closes the list, then the block. |
| HtmlVisitor.HtmlDocVisitor.VisitPreLanguage | src/htmldocvisitor.h:591-593 | A language section writes nothing on entry. |
| HtmlVisitor.HtmlDocVisitor.VisitPostLanguage | src/htmldocvisitor.h:594-596 | A language section writes nothing on exit. |
| HtmlVisitor.HtmlDocVisitor.VisitPreParamSect | src/htmldocvisitor.h:597-614 | A parameter section writes its translated label and a colon, then opens the parameter table. |
| HtmlVisitor.HtmlDocVisitor.VisitPostParamSect | src/htmldocvisitor.h:615-619 | A parameter section closes the table, then the definition list. |
| HtmlVisitor.HtmlDocVisitor.VisitPreParamList | src/htmldocvisitor.h:620-632 | A parameter row shows the names joined by single commas, in order, between the fixed row opening and closing. This is proved through the writing loop's invariant. |
| HtmlVisitor.HtmlDocVisitor.VisitPostParamList | src/htmldocvisitor.h:633-636 | A parameter row closes its cell and row. |
| HtmlVisitor.HtmlDocVisitor.VisitPreXRefItem | src/htmldocvisitor.h:637-643 | A cross-reference item opens a definition whose term links to the anchor in the HTML file and shows the escaped title. |
| HtmlVisitor.HtmlDocVisitor.VisitPostXRefItem | src/htmldocvisitor.h:644-647 | A cross-reference item closes its definition. |
| HtmlVisitor.HtmlDocVisitor.VisitPreInternalRef | src/htmldocvisitor.h:648-651 | An internal reference opens a link with an empty reference name. |
| HtmlVisitor.HtmlDocVisitor.VisitPostInternalRef | src/htmldocvisitor.h:652-656 | An internal reference closes the link and writes a space. |
| HtmlVisitor.HtmlDocVisitor.VisitPreCopy | src/htmldocvisitor.h:657-659 | A copied documentation block writes nothing on entry. |
| HtmlVisitor.HtmlDocVisitor.VisitPostCopy | src/htmldocvisitor.h:660-662 | A copied documentation block writes nothing on exit. |
| HtmlMarkup.SymbolText | src/htmldocvisitor.h:68-92 | A symbol writes nothing exactly when its code is unknown. It never introduces a tag bracket that was not its letter. Every entity it writes is a complete `&...;`. |
| HtmlMarkup.StyleText | src/htmldocvisitor.h:112-135 | Enabling and disabling a style open and close the same tag; the closing one is followed by a space. |
| HtmlMarkup.IncOperatorStep | src/htmldocvisitor.h:187-209 | A last fragment always leaves m_hide false. A first, not-last fragment always leaves it true. A middle fragment keeps it. The fragment only appends output and never touches m_insidePre. |
| HtmlMarkup.VisitLeaf | src/htmldocvisitor.h:41-227 | Every leaf except the include operator is a no-op while m_hide is set and never changes m_hide. No leaf changes m_insidePre, and output is only appended. |
| HtmlMarkup.SecRefFileName | src/htmldocvisitor.h:569-573 | The link file always ends with the HTML extension. It is the file name itself when that already ends with the extension, and otherwise the name plus the extension. |
| HtmlMarkup.Enter | src/htmldocvisitor.h:233-662 | visitPre only appends output and diagram requests. |
| HtmlMarkup.Leave | src/htmldocvisitor.h:244-662 | visitPost only appends output and never requests a diagram. |
| HtmlMarkup.WhiteSpaceRule | src/htmldocvisitor.h:53-64 | Whitespace writes nothing when hidden, its own characters inside a preformatted block, and one space elsewhere. It never changes either flag. |
| HtmlMarkup.SymbolRule | src/htmldocvisitor.h:65-93 | A visible symbol appends exactly its table entry. The four HTML-special symbols are written as the entities &lt; &gt; &amp; &copy;. |
| HtmlMarkup.IncOperatorIgnoresHide | src/htmldocvisitor.h:187-209 | What a listing fragment writes does not depend on m_hide. A first or last fragment leaves the same whole state whatever m_hide was. |
| HtmlMarkup.FlagToggles | src/htmldocvisitor.h:385-521 | Index entries and non-HTML images set m_hide on entry and clear it on exit, and they are the only compound nodes that do. Preformatted blocks do the same for m_insidePre. Every other compound node keeps both flags. Among leaves, only the listing fragment touches m_hide (see IncOperatorStep). |
| HtmlMarkup.HiddenImageWritesNothing | src/htmldocvisitor.h:502-520 | A non-HTML image writes nothing on either side, sets m_hide on entry and clears it on exit. |
| HtmlMarkup.HtmlImageOpen | src/htmldocvisitor.h:486-500 | An HTML image writes the centred block, the image with its base name as alt text, and the caption opening when it has a caption. The flags are unchanged. |
| HtmlMarkup.HtmlImageClose | src/htmldocvisitor.h:509-516 | An HTML image closes its caption only when it opened one, then closes the block. |
| HtmlMarkup.DotFileOpen | src/htmldocvisitor.h:522-540 | A dot file requests exactly one rendering (file, HTML output directory, base name). It writes the centred image named by the base name and image format. |
| HtmlMarkup.DotFileClose | src/htmldocvisitor.h:541-548 | A dot file closes its caption only when it has one, then closes the block. |
| HtmlMarkup.ParaSeparatorRule | src/htmldocvisitor.h:263-273 | A paragraph writes something exactly when it is not the last and its parent is not a parameter section, and what it writes is the separator. |
| HtmlMarkup.ParamListRow | src/htmldocvisitor.h:620-632 | A parameter row holds the comma-joined names. Comma-free names can be read back from it, and its length is the names' lengths plus one comma per gap. |
| HtmlMarkup.SecRefLink | src/htmldocvisitor.h:567-576 | A section-reference link targets a file ending with the HTML extension. The file is either the name given or that name plus the extension, and adding the extension again changes nothing. |
| HtmlMarkup.HeadingLevels | src/htmldocvisitor.h:352-359 | A section heading opens and closes with tags of the same level, level+1. An HTML header opens and closes with its own level. Each number in a tag reads back as that level. |
| HtmlMarkup.MirroredClose | src/htmldocvisitor.h:233-442 | Lists, items, preformatted blocks, description lists, rows and cells close exactly the tag they opened. |
| HtmlMarkup.ImageBaseNameShape | src/htmldocvisitor.h:488-493 | An image's base name is a suffix of its name. It holds no '/' when the name has one, no '\\' when the name has no '/', and is the whole name when there is neither. |
| HtmlMarkup.DotBaseNameShape | src/htmldocvisitor.h:524-529 | A dot file's base name is a suffix of its name without any '/', and is the whole name when there is none. |
| Traversal.CompoundBrackets | src/htmldocvisitor.h:233-662 | Whatever its children, a compound node's output starts with its opening markup and ends with its closing markup. |
| Traversal.HiddenLeavesWriteNothing | src/htmldocvisitor.h:41-227 | While m_hide is set, any run of guarded leaves leaves the whole state unchanged. |
| Traversal.HidingNodeSuppressesLeaves | src/htmldocvisitor.h:451-520 | An index entry, or a non-HTML image with its caption words, whose children are guarded leaves writes nothing. It leaves m_hide false even when m_hide was set before it. |
| Traversal.HiddenStructureStillWritten | src/htmldocvisitor.h:363-376 | A list inside an index entry still writes its tags, because compound visits ignore m_hide. |
| Traversal.EntryClearsHide | src/htmldocvisitor.h:455-458 | After an index entry, a word is written even when m_hide was set before the entry. |
| Traversal.NestedHideNotRestored | src/htmldocvisitor.h:502-520 | In a non-HTML image, a caption word that follows an index entry is written, because the entry clears m_hide rather than restoring it. |
| Traversal.HiddenDiagramStillRequested | src/htmldocvisitor.h:522-548 | A dot file inside a hidden image still requests its diagram and writes its markup. |
| Traversal.PreformattedWhitespace | src/htmldocvisitor.h:385-394 | Whitespace inside a <pre> block is written verbatim, and the block leaves m_insidePre false. |
| Traversal.FirstFragment | src/htmldocvisitor.h:191-208 | A first fragment opens the block and hides. It closes the block and unhides when it is also last. |
| Traversal.LaterFragment | src/htmldocvisitor.h:196-208 | A later fragment adds its text to the open block, and the last one closes the block and unhides. |
| Traversal.WalkIsSteps | src/htmldocvisitor.h:187-209 | Walking a run of listing fragments applies their steps in order. |
| Traversal.OpenListing | src/htmldocvisitor.h:187-209 | Until a fragment is marked last, the listing holds one open block, stays hidden and contains every fragment's text so far. |
| Traversal.IncludeListing | src/htmldocvisitor.h:187-209 | A well-formed listing opens its block once and closes it once. It highlights every fragment not skipped, separates fragments by newlines and leaves m_hide false, whatever it was before. |
| Traversal.InterleavedIsSteps | src/htmldocvisitor.h:191-204 | Up to the fragment marked last, guarded leaves walked between fragments change nothing, because the open block has set m_hide. |
| Traversal.InterleavedListing | src/htmldocvisitor.h:187-209 | A well-formed listing whose fragments are separated by runs of guarded leaves renders exactly as the fragments alone: one opening, every fragment's text, one closing, and m_hide false. |
| Traversal.FirstSkipLastText | src/htmldocvisitor.h:196-199 | A first/skip/last listing is well formed, and its skipped middle contributes only its separating newline. |
| Traversal.FirstSkipLast | src/htmldocvisitor.h:187-209 | Walking first/skip/last writes one opening, the two shown texts separated by two newlines, and one closing. |
| Text.LastIndexOf | src/htmldocvisitor.h:490 | findRev finds the last occurrence, or -1 exactly when the character does not occur. |
| Text.Right | src/htmldocvisitor.h:492 | right(n) is the suffix of length n, or the whole string when it is shorter. |
| Text.RightAfter | src/htmldocvisitor.h:528 | right(length-i-1) is exactly what follows position i. |
| Text.RightMatchesIffEndsWith | src/htmldocvisitor.h:570 | Comparing right(|ext|) with ext holds exactly when the string ends with ext. |
| Text.NatToString | src/htmldocvisitor.h:354 | A written level is a non-empty run of digits without a leading zero. |
| Text.IntToStringRoundTrip | src/htmldocvisitor.h:478 | The level written into a heading tag reads back as the same integer. |
| Text.JoinCommaSnoc | src/htmldocvisitor.h:626-630 | The first name is written alone, and each later one after a comma. |
| Text.SplitJoin | src/htmldocvisitor.h:620-632 | Comma-free parameter names are recovered by splitting the joined row at commas. |
| Text.JoinedRow | src/htmldocvisitor.h:620-632 | A non-empty parameter row reads back as its names when they hold no comma, and is as long as the names plus one comma per gap. |
| Text.JoinCommaLength | src/htmldocvisitor.h:626-630 | The joined names have the names' total length plus one comma between each pair. |

## Left out

- Console diagnostics are not modelled: the `printf` for an unknown symbol and the `ASSERT(0)` for an unknown parameter-section type. In both cases the visitor writes no text, and the model writes none.
- `endl` flushes the stream. It is modelled only as the newline character.
- The bodies of `filter`, `startLink` and `endLink` are declared in the class but defined elsewhere. They are opaque functions in `Env`, and no escaping property is proved about `filter`.
- `parseCode` and the code highlighter behind `m_ci` are not modelled. They are one function of (context, text) in `Env`, and the output they produce reaches the stream directly.
- The translator (`theTranslator`) is a function from labels to text. Its language-specific strings are not modelled.
- `Config_getString("HTML_OUTPUT")`, `Config_getEnum("DOT_IMAGE_FORMAT")` and `Doxygen::htmlFileExtension` are fields of `Env`.
- `writeDotGraphFromFile` is not performed. Each call is recorded in `graphs`, and the BITMAP format argument is fixed.
- The `#if !defined(_WIN32)` branch of the formula visit is the parameter `Env.platform`.
- The `DocVisitor` base class and each node's `accept` are not modelled. Each overload is its own method, so double dispatch is not modelled. `Traversal.Render` composes the step functions along the depth-first walk the base class performs.
- The `QStrList` of parameter names is a sequence. Null-terminated iteration is not modelled.
- `m_t` is one string that the visitor appends to, and `QTextStream` buffering is not modelled.
- `m_ci` is not modelled. It only carries the code output and needs no state of its own.
- Machine representations are not modelled. Heading levels (`level()+1` in a section, `level()` in a header) are unbounded integers, so C++ `int` overflow is not modelled. Text is a sequence of characters that may contain `'\0'`, whereas `QCString` and `const char*` text is made of bytes and ends at the first NUL.
- HtmlVisitor.HtmlDocVisitor.VisitPreInternalRef: the null `ref` argument of the original is modelled as the empty string.
- HtmlVisitor.HtmlDocVisitor.VisitFormula: `f->text().at(0)` on an empty text is treated as "not a backslash", so an empty formula text is inline.
