/**
 * The self-contained logic of the command palette module (`PDFPlusCommands` in
 * src/lib/commands.ts): the command table keyed by id, command lookup, command-name prefix
 * stripping, the fallback chains of the copy-link and canvas-card commands, the page arithmetic
 * of page insertion, the link and destination built for the current page view, and the text
 * produced when copying a document outline.
 *
 * What the commands do in the workspace (clipboard, notices, modals, file edits) is not modelled;
 * the outcomes of the Obsidian and viewer calls these helpers consult are parameters.
 */
module Commands {
  import opened Wrappers
  import opened Strings

  /** The plugin manifest's `id` and `name`. */
  datatype Manifest = Manifest(id: string, name: string)

  datatype OutlineKind = List | Heading

  /** The handler a command runs, with the arguments it binds. */
  datatype Action =
    | CopyLink(autoPaste: bool)
    | ExtractHighlightedText
    | CopyLinkToPageView
    | ShowOutline
    | ShowThumbnail
    | CloseSidebar
    | SetScaleValue(value: string)
    | Zoom(zoomIn: bool)
    | FocusAndSelectPageNumber
    | ShowCopyFormatMenu
    | ShowDisplayTextFormatMenu
    | SetWriteFile(enable: bool)
    | ToggleAutoFocus
    | ToggleSelectToCopy
    | AddPage
    | InsertPageAt(before: bool)
    | DeletePage
    | ExtractThisPage
    | DividePdf
    | EditPageLabels
    | CopyOutline(kind: OutlineKind)
    | AddOutlineItem
    | CreateNewNote
    | CopyDebugInfo
    | CreatePdf

  /** A `checkCallback` (asked first whether it applies) or a plain `callback`. */
  datatype Callback = CheckCallback(action: Action) | PlainCallback(action: Action)

  datatype Command = Command(id: string, name: string, callback: Callback)

  /** `copyCommandIds`: the commands that copy a link. */
  const CopyCommandIds: seq<string> :=
    ["copy-link-to-selection", "copy-auto-paste-link-to-selection", "copy-link-to-page-view"]

  /** The constructor's `commandArray`, in its order. */
  const CommandArray: seq<Command> := [
    Command("copy-link-to-selection", "Copy link to selection or annotation", CheckCallback(CopyLink(false))),
    Command("copy-auto-paste-link-to-selection", "Copy & auto-paste link to selection or annotation",
            CheckCallback(CopyLink(true))),
    Command("extract-annotation-and-copy-links", "Extract & copy annotations in this PDF",
            CheckCallback(ExtractHighlightedText)),
    Command("copy-link-to-page-view", "Copy link to current page view", CheckCallback(CopyLinkToPageView)),
    Command("outline", "Show outline", CheckCallback(ShowOutline)),
    Command("thumbnail", "Show thumbnail", CheckCallback(ShowThumbnail)),
    Command("close-sidebar", "Close PDF sidebar", CheckCallback(CloseSidebar)),
    Command("fit-width", "Fit width", CheckCallback(SetScaleValue("page-width"))),
    Command("fit-height", "Fit height", CheckCallback(SetScaleValue("page-height"))),
    Command("zoom-in", "Zoom in", CheckCallback(Zoom(true))),
    Command("zoom-out", "Zoom out", CheckCallback(Zoom(false))),
    Command("go-to-page", "Go to page", CheckCallback(FocusAndSelectPageNumber)),
    Command("copy-format-menu", "Show copy format menu", CheckCallback(ShowCopyFormatMenu)),
    Command("display-text-format-menu", "Show display text format menu", CheckCallback(ShowDisplayTextFormatMenu)),
    Command("enable-pdf-edit", "Enable PDF edit", CheckCallback(SetWriteFile(true))),
    Command("disable-pdf-edit", "Disable PDF edit", CheckCallback(SetWriteFile(false))),
    Command("toggle-auto-focus", "Toggle auto focus", PlainCallback(ToggleAutoFocus)),
    Command("toggle-select-to-copy", "Toggle \"select text to copy\" mode", PlainCallback(ToggleSelectToCopy)),
    Command("add-page", "Add new page at the end", CheckCallback(AddPage)),
    Command("insert-page-before", "Insert page before this page", CheckCallback(InsertPageAt(true))),
    Command("insert-page-after", "Insert page after this page", CheckCallback(InsertPageAt(false))),
    Command("delete-page", "Delete this page", CheckCallback(DeletePage)),
    Command("extract-this-page", "Extract this page to a new file", CheckCallback(ExtractThisPage)),
    Command("divide", "Divide this PDF into two files at this page", CheckCallback(DividePdf)),
    Command("edit-page-labels", "Edit page labels", CheckCallback(EditPageLabels)),
    Command("copy-outline-as-list", "Copy PDF outline as markdown list", CheckCallback(CopyOutline(List))),
    Command("copy-outline-as-headings", "Copy PDF outline as markdown headings", CheckCallback(CopyOutline(Heading))),
    Command("add-outline-item", "Add to outline (bookmark)", CheckCallback(AddOutlineItem)),
    Command("create-new-note", "Create new note for auto-focus or auto-paste", PlainCallback(CreateNewNote)),
    Command("copy-debug-info", "Copy debug info", PlainCallback(CopyDebugInfo)),
    Command("create-pdf", "Create new PDF", PlainCallback(CreatePdf))
  ]

  /* ---------------------------------------------------------------------------------------- */
  /* The command table                                                                         */
  /* ---------------------------------------------------------------------------------------- */

  /**
   * The `commands` record: a JavaScript object with string keys, so besides the key-to-command
   * map it has an order, the order in which its keys were first assigned.
   */
  datatype Registry = Registry(order: seq<string>, entries: map<string, Command>)

  /** The keys in `order` are exactly those of `entries`, each once. */
  ghost predicate WellFormed(r: Registry) {
    (forall i, j | 0 <= i < j < |r.order| :: r.order[i] != r.order[j]) &&
    (forall k :: k in r.entries <==> k in r.order)
  }

  /** `commands[c.id] = c`: a new key goes last, an existing key keeps its place. */
  function Assign(r: Registry, c: Command): Registry {
    Registry(if c.id in r.entries then r.order else r.order + [c.id], r.entries[c.id := c])
  }

  /** The record after assigning the commands of `cs` in order, starting from `{}`. */
  function Build(cs: seq<Command>): (r: Registry)
    ensures WellFormed(r)
  {
    if cs == [] then Registry([], map[])
    else
      var init := Build(cs[..|cs| - 1]);
      AssignWellFormed(init, cs[|cs| - 1]);
      Assign(init, cs[|cs| - 1])
  }

  function Ids(cs: seq<Command>): (ids: seq<string>)
    ensures |ids| == |cs| && forall i | 0 <= i < |cs| :: ids[i] == cs[i].id
  {
    if cs == [] then [] else [cs[0].id] + Ids(cs[1..])
  }

  predicate DistinctIds(cs: seq<Command>) {
    forall i, j | 0 <= i < j < |cs| :: cs[i].id != cs[j].id
  }

  /** The constructor's loop filling `commands` from `commandArray`. */
  method BuildCommands(cs: seq<Command>) returns (r: Registry)
    ensures r == Build(cs)
    ensures WellFormed(r)
    ensures forall c | c in cs :: c.id in r.entries
  {
    r := Registry([], map[]);
    for i := 0 to |cs|
      invariant r == Build(cs[..i])
    {
      assert cs[..i + 1][..i] == cs[..i];
      r := Assign(r, cs[i]);
    }
    assert cs[..|cs|] == cs;
    BuildKeys(cs);
  }

  /** Assigning keeps a record well formed. */
  lemma AssignWellFormed(r: Registry, c: Command)
    requires WellFormed(r)
    ensures WellFormed(Assign(r, c))
  {
  }

  /** The keys of the built record are the ids of the commands. */
  lemma {:induction false} BuildKeys(cs: seq<Command>)
    ensures forall k :: k in Build(cs).entries <==> exists c :: c in cs && c.id == k
  {
    if cs != [] {
      var init := cs[..|cs| - 1];
      BuildKeys(init);
      assert cs == init + [cs[|cs| - 1]];
      forall k | k in Build(cs).entries
        ensures exists c :: c in cs && c.id == k
      {
        if k != cs[|cs| - 1].id {
          var c :| c in init && c.id == k;
          assert c in cs;
        }
      }
    }
  }

  /** With distinct ids every command is found under its own id. */
  lemma {:induction false} BuildLookup(cs: seq<Command>)
    requires DistinctIds(cs)
    ensures forall c | c in cs :: c.id in Build(cs).entries && Build(cs).entries[c.id] == c
  {
    if cs != [] {
      var init, last := cs[..|cs| - 1], cs[|cs| - 1];
      BuildLookup(init);
      forall c | c in cs
        ensures c.id in Build(cs).entries && Build(cs).entries[c.id] == c
      {
        if c != last {
          var i :| 0 <= i < |cs| && cs[i] == c;
          assert i < |cs| - 1 && init[i] == c;
        }
      }
    }
  }

  /** With distinct ids the record's keys come in the order of the array. */
  lemma {:induction false} BuildOrder(cs: seq<Command>)
    requires DistinctIds(cs)
    ensures Build(cs).order == Ids(cs)
  {
    if cs != [] {
      var init, last := cs[..|cs| - 1], cs[|cs| - 1];
      BuildOrder(init);
      BuildKeys(init);
      assert last.id !in Build(init).entries;
      IdsAppend(init, [last]);
      assert cs == init + [last];
    }
  }

  /* ---------------------------------------------------------------------------------------- */
  /* Lookup and names                                                                          */
  /* ---------------------------------------------------------------------------------------- */

  /** `commands[id]`, `undefined` as `None`. */
  function Lookup(r: Registry, id: string): Option<Command> {
    if id in r.entries then Some(r.entries[id]) else None
  }

  /** `getCommand(id)`: one leading `"<manifest id>:"` is removed before the lookup. */
  function GetCommand(m: Manifest, r: Registry, id: string): (cmd: Option<Command>)
    ensures !StartsWith(id, m.id + ":") ==> cmd == Lookup(r, id)
    ensures StartsWith(id, m.id + ":") ==> cmd == Lookup(r, id[|m.id| + 1..])
  {
    var key := if StartsWith(id, m.id + ":") then id[|m.id| + 1..] else id;
    Lookup(r, key)
  }

  /** A qualified id finds the command of its unqualified part; only one prefix is removed. */
  lemma GetCommandQualified(m: Manifest, r: Registry, id: string)
    ensures GetCommand(m, r, m.id + ":" + id) == Lookup(r, id)
  {
    StartsWithConcat(m.id + ":", id);
    assert m.id + ":" + id == (m.id + ":") + id;
  }

  /** `stripCommandNamePrefix(name)`: a leading `"<manifest name>: "` is removed. */
  function StripCommandNamePrefix(m: Manifest, name: string): (r: string)
    ensures StartsWith(name, m.name + ": ") ==> m.name + ": " + r == name
    ensures !StartsWith(name, m.name + ": ") ==> r == name
  {
    if StartsWith(name, m.name + ": ") then name[|m.name| + 2..] else name
  }

  /** The name a command registered under the prefix is given back without it. */
  lemma StripPrefixed(m: Manifest, name: string)
    ensures StripCommandNamePrefix(m, m.name + ": " + name) == name
  {
    StartsWithConcat(m.name + ": ", name);
    assert m.name + ": " + name == (m.name + ": ") + name;
  }

  /** The keys of `ids` not listed in `copyIds`, in their order. */
  function NonCopyIds(ids: seq<string>, copyIds: seq<string>): (r: seq<string>)
    ensures forall k :: k in r <==> k in ids && k !in copyIds
    ensures |r| <= |ids|
  {
    if ids == [] then []
    else (if ids[0] in copyIds then [] else [ids[0]]) + NonCopyIds(ids[1..], copyIds)
  }

  /** The filter keeps the relative order: it distributes over concatenation. */
  lemma {:induction false} NonCopyIdsAppend(a: seq<string>, b: seq<string>, copyIds: seq<string>)
    ensures NonCopyIds(a + b, copyIds) == NonCopyIds(a, copyIds) + NonCopyIds(b, copyIds)
  {
    if a != [] {
      assert (a + b)[1..] == a[1..] + b;
      NonCopyIdsAppend(a[1..], b, copyIds);
    } else {
      assert a + b == b;
    }
  }

  /** The stripped names of the commands under `ids`. */
  function NamesOf(m: Manifest, r: Registry, ids: seq<string>): (names: seq<string>)
    requires forall k | k in ids :: k in r.entries
    ensures |names| == |ids|
    ensures forall i | 0 <= i < |ids| :: names[i] == StripCommandNamePrefix(m, r.entries[ids[i]].name)
  {
    if ids == [] then [] else [StripCommandNamePrefix(m, r.entries[ids[0]].name)] + NamesOf(m, r, ids[1..])
  }

  /** `listCommandNames`: the stripped names of all commands, in key order. */
  function ListCommandNames(m: Manifest, r: Registry): (names: seq<string>)
    requires WellFormed(r)
    ensures |names| == |r.order|
    ensures forall i | 0 <= i < |r.order| :: names[i] == StripCommandNamePrefix(m, r.entries[r.order[i]].name)
  {
    NamesOf(m, r, r.order)
  }

  /**
   * `listNonCopyCommandNames`: the keys are filtered and mapped in one pass; the result is the
   * stripped names of exactly the non-copy commands, in key order.
   */
  function ListNonCopyCommandNames(m: Manifest, r: Registry, copyIds: seq<string>): (names: seq<string>)
    requires WellFormed(r)
    ensures names == NamesOf(m, r, NonCopyIds(r.order, copyIds))
  {
    NonCopyNames(m, r, r.order, copyIds)
  }

  function NonCopyNames(m: Manifest, r: Registry, ids: seq<string>, copyIds: seq<string>): (names: seq<string>)
    requires forall k | k in ids :: k in r.entries
    ensures names == NamesOf(m, r, NonCopyIds(ids, copyIds))
  {
    if ids == [] then []
    else
      var rest := NonCopyNames(m, r, ids[1..], copyIds);
      var names := (if ids[0] in copyIds then [] else [StripCommandNamePrefix(m, r.entries[ids[0]].name)]) + rest;
      NamesOfAppend(m, r, if ids[0] in copyIds then [] else [ids[0]], NonCopyIds(ids[1..], copyIds));
      names
  }

  lemma {:induction false} NamesOfAppend(m: Manifest, r: Registry, a: seq<string>, b: seq<string>)
    requires forall k | k in a + b :: k in r.entries
    ensures NamesOf(m, r, a + b) == NamesOf(m, r, a) + NamesOf(m, r, b)
  {
    if a != [] {
      assert (a + b)[1..] == a[1..] + b;
      NamesOfAppend(m, r, a[1..], b);
    } else {
      assert a + b == b;
    }
  }

  /** The commands of `cs` whose ids are not in `copyIds`, in table order. */
  function NonCopyCommands(cs: seq<Command>, copyIds: seq<string>): (f: seq<Command>)
    ensures forall c :: c in f <==> c in cs && c.id !in copyIds
  {
    if cs == [] then []
    else (if cs[0].id in copyIds then [] else [cs[0]]) + NonCopyCommands(cs[1..], copyIds)
  }

  lemma {:induction false} NonCopyIdsOfCommands(cs: seq<Command>, copyIds: seq<string>)
    ensures NonCopyIds(Ids(cs), copyIds) == Ids(NonCopyCommands(cs, copyIds))
  {
    if cs != [] {
      NonCopyIdsOfCommands(cs[1..], copyIds);
      assert Ids(cs)[1..] == Ids(cs[1..]);
      var head := if cs[0].id in copyIds then [] else [cs[0]];
      IdsAppend(head, NonCopyCommands(cs[1..], copyIds));
    }
  }

  lemma IdsAppend(a: seq<Command>, b: seq<Command>)
    ensures Ids(a + b) == Ids(a) + Ids(b)
  {
  }

  /**
   * `listNonCopyCommandNames` over a table with distinct ids yields, in table order, the
   * stripped names of exactly the commands whose ids are not copy ids.
   */
  lemma NonCopyNamesInTableOrder(m: Manifest, cs: seq<Command>, copyIds: seq<string>)
    requires DistinctIds(cs)
    ensures var names := ListNonCopyCommandNames(m, Build(cs), copyIds);
            var f := NonCopyCommands(cs, copyIds);
            |names| == |f| && forall i | 0 <= i < |f| :: names[i] == StripCommandNamePrefix(m, f[i].name)
  {
    BuildOrder(cs);
    BuildLookup(cs);
    NonCopyIdsOfCommands(cs, copyIds);
  }

  /** The ids of the first eight commands of the array occur nowhere later in it. */
  lemma LeadingIdsUnique()
    ensures forall i, j | 0 <= i < 8 && i < j < |CommandArray| :: CommandArray[i].id != CommandArray[j].id
  {
  }

  /** The ids of the next eight commands of the array occur nowhere later in it. */
  lemma MiddleIdsUnique()
    ensures forall i, j | 8 <= i < 16 && i < j < |CommandArray| :: CommandArray[i].id != CommandArray[j].id
  {
  }

  /** The ids of the remaining commands of the array are distinct. */
  lemma TrailingIdsUnique()
    ensures forall i, j | 16 <= i < j < |CommandArray| :: CommandArray[i].id != CommandArray[j].id
  {
  }

  /** The ids of `commandArray` are distinct. */
  lemma CommandIdsDistinct()
    ensures DistinctIds(CommandArray)
  {
    LeadingIdsUnique();
    MiddleIdsUnique();
    TrailingIdsUnique();
  }

  /** The constructor's table holds every command of `commandArray` under its own id. */
  lemma CommandTableLookup()
    ensures forall c | c in CommandArray :: c.id in Build(CommandArray).entries && Build(CommandArray).entries[c.id] == c
  {
    CommandIdsDistinct();
    BuildLookup(CommandArray);
  }

  /** The keys of the constructor's table come in the order of `commandArray`. */
  lemma CommandTableOrder()
    ensures Build(CommandArray).order == Ids(CommandArray)
  {
    CommandIdsDistinct();
    BuildOrder(CommandArray);
  }

  /**
   * `listNonCopyCommandNames` on the constructor's table yields, in the order of `commandArray`,
   * the stripped names of the commands other than the three copy commands.
   */
  lemma CommandTableNonCopyNames(m: Manifest)
    ensures var names := ListNonCopyCommandNames(m, Build(CommandArray), CopyCommandIds);
            var f := NonCopyCommands(CommandArray, CopyCommandIds);
            |names| == |f| && forall i | 0 <= i < |f| :: names[i] == StripCommandNamePrefix(m, f[i].name)
  {
    CommandIdsDistinct();
    NonCopyNamesInTableOrder(m, CommandArray, CopyCommandIds);
  }

  /* ---------------------------------------------------------------------------------------- */
  /* Fallback chains                                                                           */
  /* ---------------------------------------------------------------------------------------- */

  datatype Attempt = WriteHighlightAndCopyLink | CopyLinkToAnnotation | CopyLinkToSelection
                   | CanvasCardFromAnnotation | CanvasCardFromSelection

  /** The result of a command callback and the attempts it made, in order. */
  datatype Outcome = Outcome(result: bool, attempts: seq<Attempt>)

  /**
   * `copyLink`: writing a highlight into the file, then copying a link to an annotation, then to
   * the selection; `write`, `annotation` and `selection` are what each attempt would return.
   */
  function CopyLinkChain(write: bool, annotation: bool, selection: bool): (o: Outcome)
    ensures o.result <==> write || annotation || selection
    ensures 1 <= |o.attempts| <= 3
    ensures o.attempts == [WriteHighlightAndCopyLink, CopyLinkToAnnotation, CopyLinkToSelection][..|o.attempts|]
    ensures |o.attempts| > 1 <==> !write
    ensures |o.attempts| > 2 <==> !write && !annotation
  {
    if write then Outcome(true, [WriteHighlightAndCopyLink])
    else if annotation then Outcome(true, [WriteHighlightAndCopyLink, CopyLinkToAnnotation])
    else Outcome(selection, [WriteHighlightAndCopyLink, CopyLinkToAnnotation, CopyLinkToSelection])
  }

  /** `createCanvasCard`: from an annotation, then from the selection. */
  function CanvasCardChain(annotation: bool, selection: bool): (o: Outcome)
    ensures o.result <==> annotation || selection
    ensures 1 <= |o.attempts| <= 2
    ensures o.attempts == [CanvasCardFromAnnotation, CanvasCardFromSelection][..|o.attempts|]
    ensures |o.attempts| > 1 <==> !annotation
  {
    if annotation then Outcome(true, [CanvasCardFromAnnotation])
    else Outcome(selection, [CanvasCardFromAnnotation, CanvasCardFromSelection])
  }

  /**
   * A chain stops at its first success: every attempt but the last failed, and the chain
   * answers what its last attempt answered.
   */
  lemma CopyLinkStopsAtFirstSuccess(write: bool, annotation: bool, selection: bool)
    ensures var o := CopyLinkChain(write, annotation, selection);
            var answers := [write, annotation, selection];
            (forall i | 0 <= i < |o.attempts| - 1 :: !answers[i]) && o.result == answers[|o.attempts| - 1]
  {
  }

  lemma CanvasCardStopsAtFirstSuccess(annotation: bool, selection: bool)
    ensures var o := CanvasCardChain(annotation, selection);
            var answers := [annotation, selection];
            (forall i | 0 <= i < |o.attempts| - 1 :: !answers[i]) && o.result == answers[|o.attempts| - 1]
  {
  }

  /* ---------------------------------------------------------------------------------------- */
  /* Page insertion                                                                            */
  /* ---------------------------------------------------------------------------------------- */

  /** The pages an insertion works with: the new page's number and the page sizing it. */
  datatype Insertion = Insertion(page: int, basePage: int)

  /**
   * `insertPage`: nothing is inserted without the composer or an open PDF file; otherwise the
   * new page goes before or after the current page `basePage`, sized like it. The result is the
   * insertion the command makes when it is not only checking, and `r.Some?` is the boolean it
   * returns in either mode.
   */
  function InsertPage(composerEnabled: bool, hasFile: bool, basePage: int, before: bool): (r: Option<Insertion>)
    ensures r.Some? <==> composerEnabled && hasFile
    ensures r.Some? ==> r.value.basePage == basePage
    ensures r.Some? && before ==> r.value.page == basePage
    ensures r.Some? && !before ==> r.value.page == basePage + 1
  {
    if !composerEnabled || !hasFile then None
    else Some(Insertion(basePage + (if before then 0 else 1), basePage))
  }

  /** Inserting after page `n` puts the new page where inserting before page `n + 1` would. */
  lemma InsertAfterIsBeforeNext(basePage: int)
    ensures InsertPage(true, true, basePage, false).value.page == InsertPage(true, true, basePage + 1, true).value.page
  {
  }

  /* ---------------------------------------------------------------------------------------- */
  /* The link to the current page view                                                         */
  /* ---------------------------------------------------------------------------------------- */

  /** A destination array: a 0-based page index, the fit type and its parameters. */
  datatype DestArray = FitBH(pageIndex: int, top: real) | XYZ(pageIndex: int, left: real, top: real, zoom: real)

  /**
   * The state of a PDF view: its 1-based page and, when they are numbers, its scroll offsets
   * and zoom.
   */
  datatype ViewState = ViewState(page: int, left: Option<real>, top: Option<real>, zoom: Option<real>)

  /** What the page-view command copies: the link's subpath and the destination it records. */
  datatype PageViewLink = PageViewLink(subpath: string, dest: DestArray)

  /** The subpath that points at a destination: its 1-based page, then its offset. */
  function SubpathOf(dest: DestArray, show: real -> string): string {
    "#page=" + show((dest.pageIndex + 1) as real) + "&offset=" +
    match dest
    case FitBH(_, top) => "," + show(top) + ","
    case XYZ(_, left, top, zoom) => show(left) + "," + show(top) + "," + show(zoom)
  }

  /**
   * `copyLinkToPageView`: the command fails without a PDF view with a file, or when the offsets
   * are not numbers. Otherwise, unless it is only being checked, it builds the subpath and the
   * destination: `FitBH` with the top offset when the scale is `"page-width"`, `XYZ` with left,
   * top and zoom (0 when there is none) otherwise. `show` is JavaScript's number formatting.
   */
  method CopyLinkToPageViewCommand(checking: bool, hasView: bool, state: ViewState, scaleValue: Option<string>,
                                   show: real -> string)
    returns (ok: bool, copied: Option<PageViewLink>)
    ensures ok <==> hasView && state.left.Some? && state.top.Some?
    ensures copied.Some? <==> ok && !checking
    ensures copied.Some? ==>
              copied.value.dest.pageIndex == state.page - 1 &&
              copied.value.dest.top == state.top.value &&
              (copied.value.dest.FitBH? <==> scaleValue == Some("page-width")) &&
              (copied.value.dest.XYZ? ==>
                 copied.value.dest.left == state.left.value && copied.value.dest.zoom == state.zoom.GetOr(0.0))
    ensures copied.Some? ==> copied.value.subpath == SubpathOf(copied.value.dest, show)
  {
    if !hasView {
      return false, None;
    }
    if state.left.None? || state.top.None? {
      return false, None;
    }
    copied := None;
    if !checking {
      var subpath := "#page=" + show(state.page as real);
      var destArray: DestArray;
      if scaleValue == Some("page-width") {
        subpath := subpath + "&offset=," + show(state.top.value) + ",";
        destArray := FitBH(state.page - 1, state.top.value);
      } else {
        subpath := subpath + "&offset=" + show(state.left.value) + "," + show(state.top.value) + ","
                   + show(state.zoom.GetOr(0.0));
        destArray := XYZ(state.page - 1, state.left.value, state.top.value, state.zoom.GetOr(0.0));
      }
      copied := Some(PageViewLink(subpath, destArray));
    }
    return true, copied;
  }

  /* ---------------------------------------------------------------------------------------- */
  /* Copying the outline                                                                       */
  /* ---------------------------------------------------------------------------------------- */

  /**
   * An outline item in the order the outline's pre-order walk enters it: whether it is the root,
   * its depth (1 for a top-level item) and the text evaluated for it (its title, or the link text
   * produced by the copy format when its destination resolves to a page).
   */
  datatype OutlineItem = OutlineItem(isRoot: bool, depth: int, evaluated: string)

  /**
   * The indentation unit: a tab, or `tabSize` spaces; `" ".repeat(n)` throws for a negative
   * `n`, which is `None` here.
   */
  function Indent(useTab: bool, tabSize: int): (r: Option<string>)
    ensures useTab ==> r == Some("\t")
    ensures !useTab ==> (r.Some? <==> tabSize >= 0)
    ensures !useTab && r.Some? ==> |r.value| == tabSize && forall i | 0 <= i < tabSize :: r.value[i] == ' '
  {
    if useTab then Some("\t")
    else if tabSize < 0 then None
    else RepeatChar(' ', tabSize); Some(Repeat(" ", tabSize))
  }

  /**
   * The line of one non-root item: a list line is `depth - 1` indents, `"- "` and the text; a
   * heading line is `depth + minHeadingLevel - 1` hashes, a space and the text. A negative
   * repeat count throws, which is `None` here.
   */
  function OutlineLine(kind: OutlineKind, indent: string, minHeadingLevel: int, item: OutlineItem): Option<string> {
    match kind
    case List =>
      if item.depth - 1 < 0 then None else Some(Repeat(indent, item.depth - 1) + "- " + item.evaluated + "\n")
    case Heading =>
      var level := item.depth + minHeadingLevel - 1;
      if level < 0 then None else Some(Repeat("#", level) + " " + item.evaluated + "\n")
  }

  /** The text after entering `item`, given the text so far (`None` once a repeat has thrown). */
  function AppendLine(kind: OutlineKind, indent: string, minHeadingLevel: int, text: Option<string>,
                      item: OutlineItem): Option<string> {
    if text.None? then None
    else if item.isRoot then text
    else
      var line := OutlineLine(kind, indent, minHeadingLevel, item);
      if line.None? then None else Some(text.value + line.value)
  }

  /** The text copied for the items of `items`: their lines in order, the root left out. */
  function OutlineText(kind: OutlineKind, indent: string, minHeadingLevel: int, items: seq<OutlineItem>): Option<string> {
    if items == [] then Some("")
    else AppendLine(kind, indent, minHeadingLevel, OutlineText(kind, indent, minHeadingLevel, items[..|items| - 1]),
                    items[|items| - 1])
  }

  /** Entering an item after more text puts the same line after it. */
  lemma AppendLineShift(kind: OutlineKind, indent: string, minHeadingLevel: int, prefix: string, text: string,
                        item: OutlineItem)
    ensures var r := AppendLine(kind, indent, minHeadingLevel, Some(text), item);
            AppendLine(kind, indent, minHeadingLevel, Some(prefix + text), item) ==
            (if r.Some? then Some(prefix + r.value) else None)
  {
    if !item.isRoot {
      var line := OutlineLine(kind, indent, minHeadingLevel, item);
      if line.Some? {
        assert prefix + text + line.value == prefix + (text + line.value);
      }
    }
  }

  /**
   * The loop of `copyOutline` accumulating `text`; `None` when a repeat count throws, in which
   * case nothing is copied.
   */
  method CopyOutlineText(kind: OutlineKind, indent: string, minHeadingLevel: int, items: seq<OutlineItem>)
    returns (text: Option<string>)
    ensures text == OutlineText(kind, indent, minHeadingLevel, items)
  {
    var acc := "";
    for i := 0 to |items|
      invariant OutlineText(kind, indent, minHeadingLevel, items[..i]) == Some(acc)
    {
      assert items[..i + 1][..i] == items[..i];
      if !items[i].isRoot {
        var line := OutlineLine(kind, indent, minHeadingLevel, items[i]);
        if line.None? {
          OutlineTextStaysFailed(kind, indent, minHeadingLevel, items, i + 1);
          return None;
        }
        acc := acc + line.value;
      }
    }
    assert items[..|items|] == items;
    return Some(acc);
  }

  /** Once a prefix of the items fails, the whole text fails. */
  lemma {:induction false} OutlineTextStaysFailed(kind: OutlineKind, indent: string, minHeadingLevel: int,
                                                  items: seq<OutlineItem>, n: nat)
    requires n <= |items|
    requires OutlineText(kind, indent, minHeadingLevel, items[..n]).None?
    ensures OutlineText(kind, indent, minHeadingLevel, items).None?
  {
    if n < |items| {
      assert items[..|items| - 1][..n] == items[..n];
      OutlineTextStaysFailed(kind, indent, minHeadingLevel, items[..|items| - 1], n);
    } else {
      assert items[..n] == items;
    }
  }

  /** The root item contributes no line. */
  lemma OutlineRootSkipped(kind: OutlineKind, indent: string, minHeadingLevel: int,
                           items: seq<OutlineItem>, root: OutlineItem)
    requires root.isRoot
    ensures OutlineText(kind, indent, minHeadingLevel, items + [root]) == OutlineText(kind, indent, minHeadingLevel, items)
  {
    assert (items + [root])[..|items|] == items;
  }

  /** The text of a concatenation of walks is the concatenation of their texts. */
  lemma {:induction false} OutlineTextAppend(kind: OutlineKind, indent: string, minHeadingLevel: int,
                                             a: seq<OutlineItem>, b: seq<OutlineItem>)
    requires OutlineText(kind, indent, minHeadingLevel, a).Some?
    requires OutlineText(kind, indent, minHeadingLevel, b).Some?
    ensures OutlineText(kind, indent, minHeadingLevel, a + b) ==
            Some(OutlineText(kind, indent, minHeadingLevel, a).value + OutlineText(kind, indent, minHeadingLevel, b).value)
  {
    if b == [] {
      assert a + b == a;
      assert OutlineText(kind, indent, minHeadingLevel, a).value + "" == OutlineText(kind, indent, minHeadingLevel, a).value;
    } else {
      var init, last := b[..|b| - 1], b[|b| - 1];
      assert (a + b)[..|a + b| - 1] == a + init;
      assert (a + b)[|a + b| - 1] == last;
      assert OutlineText(kind, indent, minHeadingLevel, init).Some?;
      OutlineTextAppend(kind, indent, minHeadingLevel, a, init);
      AppendLineShift(kind, indent, minHeadingLevel, OutlineText(kind, indent, minHeadingLevel, a).value,
                      OutlineText(kind, indent, minHeadingLevel, init).value, last);
    }
  }

  /** A heading line can be read back: its leading hashes give the item's heading level. */
  lemma HeadingLineLevel(indent: string, minHeadingLevel: int, item: OutlineItem)
    requires item.depth + minHeadingLevel - 1 >= 0
    ensures var line := OutlineLine(Heading, indent, minHeadingLevel, item);
            line.Some? && CountLeading('#', line.value) == item.depth + minHeadingLevel - 1
  ensures var line := OutlineLine(Heading, indent, minHeadingLevel, item);
          line.Some? && line.value[item.depth + minHeadingLevel - 1..] == " " + item.evaluated + "\n"
  {
    var level := item.depth + minHeadingLevel - 1;
    var rest := " " + item.evaluated + "\n";
    assert Repeat("#", level) + " " + item.evaluated + "\n" == Repeat(['#'], level) + rest;
    assert (Repeat(['#'], level) + rest)[level..] == rest;
    CountLeadingRun('#', level, rest);
  }

  /** A list line indented with tabs can be read back: its leading tabs give the item's depth. */
  lemma ListLineDepth(minHeadingLevel: int, item: OutlineItem)
    requires item.depth >= 1
    ensures var line := OutlineLine(List, "\t", minHeadingLevel, item);
            line.Some? && CountLeading('\t', line.value) == item.depth - 1
  ensures var line := OutlineLine(List, "\t", minHeadingLevel, item);
          line.Some? && line.value[item.depth - 1..] == "- " + item.evaluated + "\n"
  {
    var rest := "- " + item.evaluated + "\n";
    assert Repeat("\t", item.depth - 1) + "- " + item.evaluated + "\n" == Repeat(['\t'], item.depth - 1) + rest;
    assert (Repeat(['\t'], item.depth - 1) + rest)[item.depth - 1..] == rest;
    CountLeadingRun('\t', item.depth - 1, rest);
  }
}
