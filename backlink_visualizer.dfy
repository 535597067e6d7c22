/**
 * The backlink overlay engine of one PDF viewer (`PDFViewerBacklinkVisualizer` in
 * src/backlink-visualizer.ts): three handlers, one per rendering stage of a page, that place
 * highlight rectangles and icons for the backlinks pointing into the page, record them in the
 * page's cache-element relation and post-process the page once all three stages have run.
 *
 * The collaborators whose code is not part of this model are parameters: the backlink index's
 * groups for a page (`PageIndex`), the rendered page (`PageView`), the decoders of destination
 * ids and the selection-rectangle merger (`Codecs`).
 */
module BacklinkVisualizer {
  import opened Wrappers
  import opened Geometry
  import opened BacklinkDom

  /** The plugin settings the engine reads. */
  datatype Settings = Settings(
    highlightBacklinks: bool,
    highlightBacklinksInCanvas: bool,
    highlightBacklinksInHoverPopover: bool,
    highlightBacklinksInEmbed: bool,
    showBacklinkIconForSelection: bool,
    showBacklinkIconForAnnotation: bool,
    showBoundingRectForBacklinkedAnnot: bool,
    showBacklinkIconForOffset: bool,
    showBacklinkIconForRect: bool,
    backlinkIconSize: real)

  /** How the viewer is embedded, as the `isNonEmbedLike`, `isCanvas`, ... tests classify it. */
  datatype Viewer = Viewer(nonEmbedLike: bool, canvas: bool, hoverPopover: bool, embed: bool)

  /**
   * `shouldVisualizeBacklinks`: backlink highlighting must be on; a stand-alone viewer needs
   * nothing more, a canvas, hover-popover or embed viewer needs its own setting too.
   */
  function ShouldVisualizeBacklinks(s: Settings, v: Viewer): (b: bool)
    ensures b ==> s.highlightBacklinks
    ensures s.highlightBacklinks && v.nonEmbedLike ==> b
    ensures !v.nonEmbedLike ==>
              (b <==> s.highlightBacklinks &&
                      ((v.canvas && s.highlightBacklinksInCanvas) || (v.hoverPopover && s.highlightBacklinksInHoverPopover)
                       || (v.embed && s.highlightBacklinksInEmbed)))
  {
    s.highlightBacklinks
    && (v.nonEmbedLike
        || (s.highlightBacklinksInCanvas && v.canvas)
        || (s.highlightBacklinksInHoverPopover && v.hoverPopover)
        || (s.highlightBacklinksInEmbed && v.embed))
  }

  /** A page's text layer: the text of each of its text items. */
  datatype TextLayer = TextLayer(textDivs: seq<string>)

  /** A native annotation of the page: its container element, its rectangle and its colour. */
  datatype Annotation = Annotation(container: Element, rect: Rect, color: Rgb)

  /**
   * A rendered page: its width, and its text layer and annotation layer (keyed by annotation id)
   * once they exist.
   */
  datatype PageView = PageView(pageWidth: real, textLayer: Option<TextLayer>,
                               annotationLayer: Option<map<string, Annotation>>)

  /** A destination id of the page's backlink index with the caches of the backlinks to it. */
  datatype Group = Group(id: string, caches: set<BacklinkCache>)

  /** The backlink index of one page, one list of groups per kind of destination. */
  datatype PageIndex = PageIndex(selections: seq<Group>, annotations: seq<Group>, xyzs: seq<Group>,
                                 fitBHs: seq<Group>, fitRs: seq<Group>)

  datatype SelectionParams = SelectionParams(beginIndex: int, beginOffset: int, endIndex: int, endOffset: int)

  /** A merged highlight rectangle and the text items it covers. */
  datatype MergedRect = MergedRect(rect: Rect, indices: seq<int>)

  /**
   * The decoders of destination ids (`selectionIdToParams`, `XYZIdToParams` giving left and top,
   * `FitBHIdToParams` giving top, `FitRIdToParams`) and `computeMergedHighlightRects`.
   */
  datatype Codecs = Codecs(
    selectionIdToParams: string -> SelectionParams,
    xyzIdToParams: string -> (real, real),
    fitBHIdToParams: string -> real,
    fitRIdToParams: string -> Rect,
    computeMergedHighlightRects: (TextLayer, SelectionParams) -> seq<MergedRect>)

  /** The caches of a list of groups. */
  function CachesOfGroups(gs: seq<Group>): set<BacklinkCache> {
    set g, c | g in gs && c in g.caches :: c
  }

  /** The annotation containers of a page view. */
  function Containers(view: PageView): set<Element> {
    if view.annotationLayer.None? then {} else
      set id | id in view.annotationLayer.value :: view.annotationLayer.value[id].container
  }

  /** The containers of `view` belong to page `p`, are attached and lie outside the highlight layer. */
  ghost predicate ContainersFit(p: int, view: PageView)
    reads Containers(view)`attached
  {
    forall e | e in Containers(view) :: e.page == p && e.attached && !e.inHighlightLayer
  }

  function ElementsOfOption(o: Option<Element>): set<Element> {
    if o.Some? then {o.value} else {}
  }

  /** The elements of a sequence. */
  function SeqElements(s: seq<Element>): set<Element> {
    set e | e in s
  }

  const IconClasses := {"pdf-plus-backlink-icon"}
  const FitRClasses := {"pdf-plus-backlink", "pdf-plus-backlink-fit-r"}
  const SelectionClasses := {"pdf-plus-backlink", "pdf-plus-backlink-selection"}
  const AnnotationClasses := {"pdf-plus-backlink", "pdf-plus-backlink-annotation"}
  const BoundingRectClasses := {"pdf-plus-annotation-bounding-rect"}

  /** The kinds of destination, one `process*` method each. */
  datatype Kind = XYZ | FitBH | FitR | Selection | Annot

  /**
   * What one `process*` call did for one group: the native annotation container it marked (only
   * for an annotation), the rectangles it placed, in order, and the icon it placed.
   */
  datatype Placement = Placement(marked: Option<Element>, rects: seq<Element>, icon: Option<Element>) {
    /** The elements the call created. */
    function Created(): set<Element> {
      SeqElements(rects) + ElementsOfOption(icon)
    }

    /** The elements the call recorded under every cache of the group. */
    function Recorded(): set<Element> {
      ElementsOfOption(marked) + Created()
    }

    /** Each element the call created was placed once: no rectangle twice, and the icon is none of them. */
    predicate Distinct() {
      (forall i, j | 0 <= i < j < |rects| :: rects[i] != rects[j]) &&
      (icon.Some? ==> icon.value !in rects)
    }
  }

  const NothingPlaced := Placement(None, [], None)

  /** The elements created by a run of calls. */
  function CreatedBy(pls: seq<Placement>): set<Element> {
    set i, e | 0 <= i < |pls| && e in pls[i].Created() :: e
  }

  /** No element was created by two calls of the run. */
  predicate Separate(pls: seq<Placement>) {
    forall i, j | 0 <= i < j < |pls| :: pls[i].Created() !! pls[j].Created()
  }

  /** The containers marked by a run of calls. */
  function MarkedBy(pls: seq<Placement>): set<Element> {
    set i | 0 <= i < |pls| && pls[i].marked.Some? :: pls[i].marked.value
  }

  /** The pairs a loop over the groups `gs` records: what it placed for each group, under each of the group's caches. */
  ghost function GroupPairs(gs: seq<Group>, pls: seq<Placement>): set<Link>
    requires |pls| == |gs|
  {
    set i, c, e | 0 <= i < |gs| && c in gs[i].caches && e in pls[i].Recorded() :: (c, e)
  }

  /** `e` is an attached highlight-layer element of page `p` covering `rect` and carrying exactly `classes`. */
  ghost predicate IsPlaced(e: Element, p: int, rect: Rect, classes: set<string>)
    reads e`attached, e`classes
  {
    e.page == p && e.inHighlightLayer && e.attached && e.rect == rect && e.classes == classes
  }

  /** Whether group `g` names an annotation of the page's annotation layer. */
  predicate AnnotationFound(view: PageView, g: Group) {
    view.annotationLayer.Some? && g.id in view.annotationLayer.value
  }

  /** The containers of the annotations that groups of `gs` name. */
  function MarkedContainers(view: PageView, gs: seq<Group>): set<Element> {
    set g | g in gs && AnnotationFound(view, g) :: view.annotationLayer.value[g.id].container
  }

  /**
   * The colour of cache `c`, which was `before`, once the annotation groups `gs` have been
   * processed in order: the RGB colour of the last found annotation whose group holds `c`.
   */
  function ColourAfter(view: PageView, gs: seq<Group>, c: BacklinkCache, before: Option<Color>): Option<Color>
    decreases |gs|
  {
    if gs == [] then before
    else
      var g := gs[|gs| - 1];
      if AnnotationFound(view, g) && c in g.caches then Some(RgbColor(view.annotationLayer.value[g.id].color))
      else ColourAfter(view, gs[..|gs| - 1], c, before)
  }

  /** `placeRectInPage`: a new element in the highlight layer of page `p`, covering `rect`. */
  method PlaceRectInPage(p: int, rect: Rect) returns (e: Element)
    ensures fresh(e) && e.page == p && e.rect == rect && e.inHighlightLayer && e.attached
    ensures e.classes == {} && e.highlightColor == None && e.rgbColor == None && e.textIndices == []
  {
    e := new Element.Placed(p, rect);
  }

  class Visualizer {
    const settings: Settings
    const codecs: Codecs
    /** `domManager`. */
    const dom: DomManager

    constructor (settings: Settings, codecs: Codecs)
      ensures this.settings == settings && this.codecs == codecs && fresh(dom)
      ensures dom.cacheToDoms == map[] && dom.pageStatus == map[] && dom.postProcessed == []
      ensures dom.hoverHooks == {} && dom.pendingMouseOut == multiset{} && dom.Valid()
    {
      this.settings := settings;
      this.codecs := codecs;
      dom := new DomManager();
    }

    /** The side length of an icon on `view`. */
    function IconSizeOn(view: PageView): real {
      IconSize(view.pageWidth, settings.backlinkIconSize)
    }

    /**
     * `showIcon(x, y, pageView, side)`: a new icon element on page `p`, a square of the icon
     * size whose top corner on the side opposite to `side` is at `(x, y)`.
     */
    method ShowIcon(p: int, x: real, y: real, view: PageView, side: Side) returns (icon: Element)
      ensures fresh(icon) && icon.page == p && icon.inHighlightLayer && icon.attached
      ensures icon.rect == IconRect(x, y, IconSizeOn(view), side)
      ensures icon.classes == IconClasses
      ensures icon.highlightColor == None && icon.rgbColor == None
    {
      var size := Min(view.pageWidth, view.pageWidth) * settings.backlinkIconSize / 2000.0;
      icon := PlaceRectInPage(p, if side == Right then Rect(x, y - size, x + size, y)
                                 else Rect(x - size, y - size, x, y));
      icon.AddClasses(IconClasses);
    }

    /** The icon `showIcon(x, y, view, side)` places on page `p` when `show` holds, and no icon otherwise. */
    ghost predicate IconPlaced(icon: Option<Element>, show: bool, p: int, x: real, y: real, view: PageView, side: Side)
      reads ElementsOfOption(icon)`attached, ElementsOfOption(icon)`classes
    {
      (icon.Some? <==> show) &&
      (icon.Some? ==> IsPlaced(icon.value, p, IconRect(x, y, IconSizeOn(view), side), IconClasses))
    }

    /**
     * What `processAnnotation` places on page `p` once it finds annotation `a`: it marks `a`'s
     * container, places a bounding rectangle over `a` when bounding rectangles are on and an icon
     * at `a`'s top-right corner when annotation icons are on.
     */
    ghost predicate AnnotationPlaced(p: int, a: Annotation, view: PageView, pl: Placement)
      reads pl.Created()`attached, pl.Created()`classes
    {
      pl.marked == Some(a.container) && pl.Distinct() &&
      |pl.rects| == (if settings.showBoundingRectForBacklinkedAnnot then 1 else 0) &&
      (|pl.rects| == 1 ==> IsPlaced(pl.rects[0], p, a.rect, BoundingRectClasses)) &&
      IconPlaced(pl.icon, settings.showBacklinkIconForAnnotation, p, a.rect.right, a.rect.top, view, Right)
    }

    /**
     * What `processSelection` places on page `p` for the merged rectangles `rects`: one
     * rectangle per merged rectangle, carrying its text indices, and, when selection icons are
     * on and there is a rectangle, an icon at the last one's top-right corner.
     */
    ghost predicate SelectionPlaced(p: int, rects: seq<MergedRect>, view: PageView, pl: Placement)
      reads pl.Created()`attached, pl.Created()`classes, pl.Created()`textIndices
    {
      pl.marked.None? && |pl.rects| == |rects| && pl.Distinct() &&
      (forall i | 0 <= i < |rects| ::
         IsPlaced(pl.rects[i], p, rects[i].rect, SelectionClasses) && pl.rects[i].textIndices == rects[i].indices) &&
      (pl.icon.Some? <==> settings.showBacklinkIconForSelection && |rects| > 0) &&
      (pl.icon.Some? ==>
         var last := rects[|rects| - 1].rect;
         IsPlaced(pl.icon.value, p, IconRect(last.right, last.top, IconSizeOn(view), Right), IconClasses))
    }

    /**
     * `pl` is what the `process*` method of kind `k` places for group `g` on page `p`, each
     * element placed once:
     * - XYZ: an icon extending left from the decoded `(left, top)`, when offset icons are on;
     * - FitBH: an icon at the left edge of the page at the decoded height, when offset icons are on;
     * - FitR: a rectangle over the decoded rectangle and, when rectangle icons are on, an icon at
     *   its top-right corner;
     * - Selection: one rectangle per merged rectangle, carrying its text indices, and, when
     *   selection icons are on and there is a rectangle, an icon at the last one's top-right corner;
     * - Annot: nothing when the annotation is not found, otherwise as `AnnotationPlaced` says.
     */
    ghost predicate PlacedFor(k: Kind, p: int, g: Group, view: PageView, pl: Placement)
      reads pl.Created()`attached, pl.Created()`classes, pl.Created()`textIndices
    {
      pl.Distinct() &&
      match k
      case XYZ =>
        var (left, top) := codecs.xyzIdToParams(g.id);
        pl.marked.None? && pl.rects == [] &&
        IconPlaced(pl.icon, settings.showBacklinkIconForOffset, p, left, top, view, Left)
      case FitBH =>
        pl.marked.None? && pl.rects == [] &&
        IconPlaced(pl.icon, settings.showBacklinkIconForOffset, p, 0.0, codecs.fitBHIdToParams(g.id), view, Right)
      case FitR =>
        var r := codecs.fitRIdToParams(g.id);
        pl.marked.None? && |pl.rects| == 1 && IsPlaced(pl.rects[0], p, r, FitRClasses) &&
        IconPlaced(pl.icon, settings.showBacklinkIconForRect, p, r.right, r.top, view, Right)
      case Selection => SelectionPlaced(p, SelectionRects(view, g), view, pl)
      case Annot =>
        if AnnotationFound(view, g) then AnnotationPlaced(p, view.annotationLayer.value[g.id], view, pl)
        else pl == NothingPlaced
    }

    /**
     * `pls` is, group by group, what the `process*` method of kind `k` places for the groups `gs`;
     * no element is placed for two groups.
     */
    ghost predicate PlacedForAll(k: Kind, p: int, gs: seq<Group>, view: PageView, pls: seq<Placement>)
      reads CreatedBy(pls)`attached, CreatedBy(pls)`classes, CreatedBy(pls)`textIndices
    {
      |pls| == |gs| &&
      Separate(pls) &&
      forall i | 0 <= i < |gs| :: CreatedIn(pls, i); PlacedFor(k, p, gs[i], view, pls[i])
    }

    /** `xyz`, `fitBH` and `fitR` are what the three loops of the page-ready handler place, group by group. */
    ghost predicate OffsetsPlaced(p: int, index: PageIndex, view: PageView,
                                  xyz: seq<Placement>, fitBH: seq<Placement>, fitR: seq<Placement>)
      reads (CreatedBy(xyz) + CreatedBy(fitBH) + CreatedBy(fitR))`attached
      reads (CreatedBy(xyz) + CreatedBy(fitBH) + CreatedBy(fitR))`classes
      reads (CreatedBy(xyz) + CreatedBy(fitBH) + CreatedBy(fitR))`textIndices
    {
      PlacedForAll(XYZ, p, index.xyzs, view, xyz) && PlacedForAll(FitBH, p, index.fitBHs, view, fitBH) &&
      PlacedForAll(FitR, p, index.fitRs, view, fitR)
    }

    /**
     * The page-ready handler of `visualize`: the page is cleared, the offset icons and
     * rectangles of the page's XYZ, FitBH and FitR destinations are placed, and the page is
     * marked page-ready with the other two flags false, so post-processing does not run yet.
     * Afterwards the page's relation holds exactly what was placed for each group, under each
     * cache of the group; nothing placed by an earlier run stays in it.
     */
    method OnPageReady(p: int, index: PageIndex, view: PageView)
      returns (ghost xyz: seq<Placement>, ghost fitBH: seq<Placement>, ghost fitR: seq<Placement>)
      requires dom.Valid()
      modifies dom`cacheToDoms, dom`pageStatus, dom`hoverHooks, dom`postProcessed, dom.ElemsIn(p)`attached
      ensures dom.Valid()
      ensures dom.pageStatus == old(dom.pageStatus)[p := Status(true, false, false)]
      ensures dom.hoverHooks == old(dom.hoverHooks) && dom.postProcessed == old(dom.postProcessed)
      ensures dom.cacheToDoms - {p} == old(dom.cacheToDoms) - {p}
      ensures forall e | e in old(dom.ElemsIn(p)) :: e.attached == !e.inHighlightLayer
      ensures OffsetsPlaced(p, index, view, xyz, fitBH, fitR)
      ensures fresh(CreatedBy(xyz) + CreatedBy(fitBH) + CreatedBy(fitR))
      ensures CreatedBy(xyz) !! CreatedBy(fitBH) && CreatedBy(xyz) !! CreatedBy(fitR) && CreatedBy(fitBH) !! CreatedBy(fitR)
      ensures dom.Assoc(p) == GroupPairs(index.xyzs, xyz) + GroupPairs(index.fitBHs, fitBH) + GroupPairs(index.fitRs, fitR)
    {
      dom.ClearDomInPage(p);
      xyz, fitBH, fitR := PageArrived(p, index, view);
    }

    /**
     * The page-ready handler once page `p` is cleared: the offsets are placed and recorded and
     * the page-ready flag is set; as the other two flags are false, post-processing does not run.
     */
    method PageArrived(p: int, index: PageIndex, view: PageView)
      returns (ghost xyz: seq<Placement>, ghost fitBH: seq<Placement>, ghost fitR: seq<Placement>)
      requires dom.Valid() && p !in dom.cacheToDoms && dom.StatusOf(p) == Unready
      modifies dom`cacheToDoms, dom`pageStatus, dom`hoverHooks, dom`postProcessed
      modifies dom.ElemsIn(p)`highlightColor, dom.ElemsIn(p)`rgbColor
      ensures dom.Valid()
      ensures dom.cacheToDoms - {p} == old(dom.cacheToDoms) - {p}
      ensures dom.pageStatus == old(dom.pageStatus)[p := Status(true, false, false)]
      ensures dom.hoverHooks == old(dom.hoverHooks) && dom.postProcessed == old(dom.postProcessed)
      ensures OffsetsPlaced(p, index, view, xyz, fitBH, fitR)
      ensures fresh(CreatedBy(xyz) + CreatedBy(fitBH) + CreatedBy(fitR))
      ensures CreatedBy(xyz) !! CreatedBy(fitBH) && CreatedBy(xyz) !! CreatedBy(fitR) && CreatedBy(fitBH) !! CreatedBy(fitR)
      ensures dom.Assoc(p) == GroupPairs(index.xyzs, xyz) + GroupPairs(index.fitBHs, fitBH) + GroupPairs(index.fitRs, fitR)
    {
      xyz, fitBH, fitR := PlaceOffsets(p, index, view);
      ghost var created: set<Element> := CreatedBy(xyz) + CreatedBy(fitBH) + CreatedBy(fitR);
      assert dom.ElemsIn(p) <= created;
      FinishStage(p, StatusUpdate(Some(true), None, None), created);
    }

    /** The three loops of the page-ready handler, over the XYZ, FitBH and FitR destinations. */
    method PlaceOffsets(p: int, index: PageIndex, view: PageView)
      returns (ghost xyz: seq<Placement>, ghost fitBH: seq<Placement>, ghost fitR: seq<Placement>)
      requires dom.Valid()
      modifies dom`cacheToDoms
      ensures dom.Valid()
      ensures dom.cacheToDoms - {p} == old(dom.cacheToDoms) - {p}
      ensures OffsetsPlaced(p, index, view, xyz, fitBH, fitR)
      ensures fresh(CreatedBy(xyz) + CreatedBy(fitBH) + CreatedBy(fitR))
      ensures CreatedBy(xyz) !! CreatedBy(fitBH) && CreatedBy(xyz) !! CreatedBy(fitR) && CreatedBy(fitBH) !! CreatedBy(fitR)
      ensures dom.Assoc(p) == old(dom.Assoc(p)) + GroupPairs(index.xyzs, xyz) + GroupPairs(index.fitBHs, fitBH)
                              + GroupPairs(index.fitRs, fitR)
      ensures dom.ElemsIn(p) <= old(dom.ElemsIn(p)) + CreatedBy(xyz) + CreatedBy(fitBH) + CreatedBy(fitR)
    {
      xyz := ProcessXYZs(p, index.xyzs, view);
      fitBH := ProcessFitBHs(p, index.fitBHs, view, CreatedBy(xyz));
      fitR := ProcessFitRs(p, index.fitRs, view, CreatedBy(xyz) + CreatedBy(fitBH));
      NothingMarked(XYZ, p, index.xyzs, view, xyz);
      NothingMarked(FitBH, p, index.fitBHs, view, fitBH);
      NothingMarked(FitR, p, index.fitRs, view, fitR);
      OffsetElements(old(dom.Assoc(p)), index.xyzs, xyz, index.fitBHs, fitBH, index.fitRs, fitR);
    }

    /**
     * The text-layer handler of `visualize`: nothing but the creation of the page's readiness
     * record happens unless the page is page-ready and not yet text-layer-ready. Otherwise the
     * selection rectangles are placed and recorded, only the text-layer flag is set, and the
     * page is post-processed exactly when its annotation layer had already arrived.
     */
    method OnTextLayerReady(p: int, index: PageIndex, view: PageView) returns (ghost sel: seq<Placement>)
      requires dom.Valid()
      modifies dom`cacheToDoms, dom`pageStatus, dom`hoverHooks, dom`postProcessed
      modifies dom.ElemsIn(p)`highlightColor, dom.ElemsIn(p)`rgbColor
      ensures dom.Valid()
      ensures dom.cacheToDoms - {p} == old(dom.cacheToDoms) - {p}
      ensures var s := old(dom.StatusOf(p));
              !s.onPageReady || s.onTextLayerReady ==>
                sel == [] &&
                dom.pageStatus == old(dom.pageStatus)[p := s] && dom.cacheToDoms == old(dom.cacheToDoms) &&
                dom.hoverHooks == old(dom.hoverHooks) && dom.postProcessed == old(dom.postProcessed) &&
                forall e | e in old(dom.ElemsIn(p)) ::
                  e.highlightColor == old(e.highlightColor) && e.rgbColor == old(e.rgbColor)
      ensures var s := old(dom.StatusOf(p));
              s.onPageReady && !s.onTextLayerReady ==>
                dom.pageStatus == old(dom.pageStatus)[p := s.(onTextLayerReady := true)] &&
                PlacedForAll(Selection, p, index.selections, view, sel) && fresh(CreatedBy(sel)) &&
                dom.Assoc(p) == old(dom.Assoc(p)) + GroupPairs(index.selections, sel) &&
                if s.onAnnotationLayerReady then
                  dom.postProcessed == old(dom.postProcessed) + [p] &&
                  dom.hoverHooks == old(dom.hoverHooks) + HooksFor(dom.Assoc(p))
                else
                  dom.postProcessed == old(dom.postProcessed) && dom.hoverHooks == old(dom.hoverHooks)
    {
      sel := [];
      var status := dom.GetStatus(p);
      if !status.onPageReady || status.onTextLayerReady {
        return;
      }
      sel := TextLayerArrived(p, index, view);
    }

    /**
     * The text-layer handler once its guard has passed: the selection rectangles are placed and
     * recorded, the text-layer flag is set and the page is post-processed if it is then
     * processed.
     */
    method TextLayerArrived(p: int, index: PageIndex, view: PageView) returns (ghost sel: seq<Placement>)
      requires dom.Valid()
      modifies dom`cacheToDoms, dom`pageStatus, dom`hoverHooks, dom`postProcessed
      modifies dom.ElemsIn(p)`highlightColor, dom.ElemsIn(p)`rgbColor
      ensures dom.Valid()
      ensures dom.cacheToDoms - {p} == old(dom.cacheToDoms) - {p}
      ensures dom.pageStatus == old(dom.pageStatus)[p := old(dom.StatusOf(p)).(onTextLayerReady := true)]
      ensures PlacedForAll(Selection, p, index.selections, view, sel) && fresh(CreatedBy(sel))
      ensures dom.Assoc(p) == old(dom.Assoc(p)) + GroupPairs(index.selections, sel)
      ensures var s := old(dom.StatusOf(p));
              if s.onPageReady && s.onAnnotationLayerReady then
                dom.postProcessed == old(dom.postProcessed) + [p] &&
                dom.hoverHooks == old(dom.hoverHooks) + HooksFor(dom.Assoc(p))
              else
                dom.postProcessed == old(dom.postProcessed) && dom.hoverHooks == old(dom.hoverHooks)
    {
      sel := ProcessSelections(p, index.selections, view);
      GroupPairsElements(old(dom.Assoc(p)), index.selections, sel);
      NothingMarked(Selection, p, index.selections, view, sel);
      FinishStage(p, StatusUpdate(None, Some(true), None), CreatedBy(sel));
    }

    /**
     * The annotation-layer handler of `visualize`: nothing but the creation of the page's
     * readiness record happens unless the page is page-ready and not yet annotation-layer-ready.
     * Otherwise the backlinked annotations are marked and recorded and their caches coloured,
     * only the annotation-layer flag is set, and the page is post-processed exactly when its
     * text layer had already arrived.
     */
    method OnAnnotationLayerReady(p: int, index: PageIndex, view: PageView) returns (ghost annots: seq<Placement>)
      requires dom.Valid() && ContainersFit(p, view)
      modifies dom`cacheToDoms, dom`pageStatus, dom`hoverHooks, dom`postProcessed
      modifies dom.ElemsIn(p)`highlightColor, dom.ElemsIn(p)`rgbColor
      modifies Containers(view)`classes, Containers(view)`highlightColor, Containers(view)`rgbColor
      modifies CachesOfGroups(index.annotations)`color
      ensures dom.Valid()
      ensures dom.cacheToDoms - {p} == old(dom.cacheToDoms) - {p}
      ensures var s := old(dom.StatusOf(p));
              !s.onPageReady || s.onAnnotationLayerReady ==>
                annots == [] &&
                dom.pageStatus == old(dom.pageStatus)[p := s] && dom.cacheToDoms == old(dom.cacheToDoms) &&
                dom.hoverHooks == old(dom.hoverHooks) && dom.postProcessed == old(dom.postProcessed) &&
                (forall e | e in old(dom.ElemsIn(p)) ::
                   e.highlightColor == old(e.highlightColor) && e.rgbColor == old(e.rgbColor)) &&
                (forall e | e in Containers(view) :: e.classes == old(e.classes)) &&
                (forall c | c in CachesOfGroups(index.annotations) :: c.color == old(c.color))
      ensures var s := old(dom.StatusOf(p));
              s.onPageReady && !s.onAnnotationLayerReady ==>
                dom.pageStatus == old(dom.pageStatus)[p := s.(onAnnotationLayerReady := true)] &&
                PlacedForAll(Annot, p, index.annotations, view, annots) && fresh(CreatedBy(annots)) &&
                dom.Assoc(p) == old(dom.Assoc(p)) + GroupPairs(index.annotations, annots) &&
                (forall e | e in Containers(view) ::
                   e.classes == old(e.classes) + if e in MarkedContainers(view, index.annotations) then AnnotationClasses else {}) &&
                (forall c | c in CachesOfGroups(index.annotations) :: c.color == ColourAfter(view, index.annotations, c, old(c.color))) &&
                if s.onTextLayerReady then
                  dom.postProcessed == old(dom.postProcessed) + [p] &&
                  dom.hoverHooks == old(dom.hoverHooks) + HooksFor(dom.Assoc(p))
                else
                  dom.postProcessed == old(dom.postProcessed) && dom.hoverHooks == old(dom.hoverHooks)
    {
      annots := [];
      var status := dom.GetStatus(p);
      if !status.onPageReady || status.onAnnotationLayerReady {
        return;
      }
      annots := AnnotationLayerArrived(p, index, view);
    }

    /**
     * The annotation-layer handler once its guard has passed: the annotations are marked and
     * recorded, the annotation-layer flag is set and the page is post-processed if it is then
     * processed.
     */
    method AnnotationLayerArrived(p: int, index: PageIndex, view: PageView) returns (ghost annots: seq<Placement>)
      requires dom.Valid() && ContainersFit(p, view)
      modifies dom`cacheToDoms, dom`pageStatus, dom`hoverHooks, dom`postProcessed
      modifies dom.ElemsIn(p)`highlightColor, dom.ElemsIn(p)`rgbColor
      modifies Containers(view)`classes, Containers(view)`highlightColor, Containers(view)`rgbColor
      modifies CachesOfGroups(index.annotations)`color
      ensures dom.Valid()
      ensures dom.cacheToDoms - {p} == old(dom.cacheToDoms) - {p}
      ensures dom.pageStatus == old(dom.pageStatus)[p := old(dom.StatusOf(p)).(onAnnotationLayerReady := true)]
      ensures PlacedForAll(Annot, p, index.annotations, view, annots) && fresh(CreatedBy(annots))
      ensures dom.Assoc(p) == old(dom.Assoc(p)) + GroupPairs(index.annotations, annots)
      ensures forall e | e in Containers(view) ::
                e.classes == old(e.classes) + if e in MarkedContainers(view, index.annotations) then AnnotationClasses else {}
      ensures forall c | c in CachesOfGroups(index.annotations) :: c.color == ColourAfter(view, index.annotations, c, old(c.color))
      ensures var s := old(dom.StatusOf(p));
              if s.onPageReady && s.onTextLayerReady then
                dom.postProcessed == old(dom.postProcessed) + [p] &&
                dom.hoverHooks == old(dom.hoverHooks) + HooksFor(dom.Assoc(p))
              else
                dom.postProcessed == old(dom.postProcessed) && dom.hoverHooks == old(dom.hoverHooks)
    {
      annots := ProcessAnnotations(p, index.annotations, view);
      GroupPairsElements(old(dom.Assoc(p)), index.annotations, annots);
      MarkedInContainers(p, index.annotations, view, annots);
      ghost var created: set<Element> := CreatedBy(annots);
      FinishStage(p, StatusUpdate(None, None, Some(true)), created + Containers(view));
    }

    /**
     * The end of each handler: `updateStatus` with `u`, then `postProcessPageIfReady`. The
     * page's relation is kept; it is post-processed exactly when the merged record is processed.
     */
    method FinishStage(p: int, u: StatusUpdate, ghost kept: set<Element>)
      requires dom.Valid()
      modifies dom`cacheToDoms, dom`pageStatus, dom`hoverHooks, dom`postProcessed
      modifies dom.ElemsIn(p)`highlightColor, dom.ElemsIn(p)`rgbColor
      ensures dom.Valid()
      ensures forall e | e in kept :: unchanged(e`attached, e`classes, e`textIndices)
      ensures dom.Assoc(p) == old(dom.Assoc(p)) && dom.cacheToDoms - {p} == old(dom.cacheToDoms) - {p}
      ensures dom.pageStatus == old(dom.pageStatus)[p := Merge(old(dom.StatusOf(p)), u)]
      ensures if Merge(old(dom.StatusOf(p)), u).Processed() then
                dom.postProcessed == old(dom.postProcessed) + [p] &&
                dom.hoverHooks == old(dom.hoverHooks) + HooksFor(dom.Assoc(p))
              else
                dom.cacheToDoms == old(dom.cacheToDoms) &&
                dom.postProcessed == old(dom.postProcessed) && dom.hoverHooks == old(dom.hoverHooks)
    {
      dom.UpdateStatus(p, u);
      dom.PostProcessPageIfReady(p);
    }

    /** The page-ready handler's loop over the XYZ destinations. */
    method ProcessXYZs(p: int, gs: seq<Group>, view: PageView) returns (ghost pls: seq<Placement>)
      requires dom.Valid()
      modifies dom`cacheToDoms
      ensures dom.Valid()
      ensures dom.cacheToDoms - {p} == old(dom.cacheToDoms) - {p}
      ensures PlacedForAll(XYZ, p, gs, view, pls) && fresh(CreatedBy(pls))
      ensures dom.Assoc(p) == old(dom.Assoc(p)) + GroupPairs(gs, pls)
    {
      pls := [];
      for i := 0 to |gs|
        invariant dom.Valid()
        invariant dom.cacheToDoms - {p} == old(dom.cacheToDoms) - {p}
        invariant PlacedForAll(XYZ, p, gs[..i], view, pls) && fresh(CreatedBy(pls))
        invariant dom.Assoc(p) == old(dom.Assoc(p)) + GroupPairs(gs[..i], pls)
      {
        var pl := ProcessGroupAfter(XYZ, p, gs, i, view, pls, {});
        pls := pls + [pl];
      }
      assert gs[..|gs|] == gs;
    }

    /** The page-ready handler's loop over the FitBH destinations; it reuses none of the elements `kept`. */
    method ProcessFitBHs(p: int, gs: seq<Group>, view: PageView, ghost kept: set<Element>) returns (ghost pls: seq<Placement>)
      requires dom.Valid()
      modifies dom`cacheToDoms
      ensures dom.Valid()
      ensures dom.cacheToDoms - {p} == old(dom.cacheToDoms) - {p}
      ensures PlacedForAll(FitBH, p, gs, view, pls) && fresh(CreatedBy(pls)) && CreatedBy(pls) !! kept
      ensures dom.Assoc(p) == old(dom.Assoc(p)) + GroupPairs(gs, pls)
    {
      pls := [];
      for i := 0 to |gs|
        invariant dom.Valid()
        invariant dom.cacheToDoms - {p} == old(dom.cacheToDoms) - {p}
        invariant PlacedForAll(FitBH, p, gs[..i], view, pls) && fresh(CreatedBy(pls)) && CreatedBy(pls) !! kept
        invariant dom.Assoc(p) == old(dom.Assoc(p)) + GroupPairs(gs[..i], pls)
      {
        var pl := ProcessGroupAfter(FitBH, p, gs, i, view, pls, kept);
        pls := pls + [pl];
      }
      assert gs[..|gs|] == gs;
    }

    /** The page-ready handler's loop over the FitR destinations; it reuses none of the elements `kept`. */
    method ProcessFitRs(p: int, gs: seq<Group>, view: PageView, ghost kept: set<Element>) returns (ghost pls: seq<Placement>)
      requires dom.Valid()
      modifies dom`cacheToDoms
      ensures dom.Valid()
      ensures dom.cacheToDoms - {p} == old(dom.cacheToDoms) - {p}
      ensures PlacedForAll(FitR, p, gs, view, pls) && fresh(CreatedBy(pls)) && CreatedBy(pls) !! kept
      ensures dom.Assoc(p) == old(dom.Assoc(p)) + GroupPairs(gs, pls)
    {
      pls := [];
      for i := 0 to |gs|
        invariant dom.Valid()
        invariant dom.cacheToDoms - {p} == old(dom.cacheToDoms) - {p}
        invariant PlacedForAll(FitR, p, gs[..i], view, pls) && fresh(CreatedBy(pls)) && CreatedBy(pls) !! kept
        invariant dom.Assoc(p) == old(dom.Assoc(p)) + GroupPairs(gs[..i], pls)
      {
        var pl := ProcessGroupAfter(FitR, p, gs, i, view, pls, kept);
        pls := pls + [pl];
      }
      assert gs[..|gs|] == gs;
    }

    /** The text-layer handler's loop over the selection destinations. */
    method ProcessSelections(p: int, gs: seq<Group>, view: PageView) returns (ghost pls: seq<Placement>)
      requires dom.Valid()
      modifies dom`cacheToDoms
      ensures dom.Valid()
      ensures dom.cacheToDoms - {p} == old(dom.cacheToDoms) - {p}
      ensures PlacedForAll(Selection, p, gs, view, pls) && fresh(CreatedBy(pls))
      ensures dom.Assoc(p) == old(dom.Assoc(p)) + GroupPairs(gs, pls)
    {
      pls := [];
      for i := 0 to |gs|
        invariant dom.Valid()
        invariant dom.cacheToDoms - {p} == old(dom.cacheToDoms) - {p}
        invariant PlacedForAll(Selection, p, gs[..i], view, pls) && fresh(CreatedBy(pls))
        invariant dom.Assoc(p) == old(dom.Assoc(p)) + GroupPairs(gs[..i], pls)
      {
        var pl := ProcessGroupAfter(Selection, p, gs, i, view, pls, {});
        pls := pls + [pl];
      }
      assert gs[..|gs|] == gs;
    }

    /**
     * One turn of the loop over the destinations of kind `k`, other than annotations: group `i`
     * is processed after the groups before it placed `pls`, and reuses none of those nor of `kept`.
     */
    method ProcessGroupAfter(k: Kind, p: int, gs: seq<Group>, i: int, view: PageView, ghost pls: seq<Placement>,
                             ghost kept: set<Element>)
      returns (ghost pl: Placement)
      requires k != Annot && dom.Valid() && 0 <= i < |gs| && PlacedForAll(k, p, gs[..i], view, pls)
      modifies dom`cacheToDoms
      ensures dom.Valid()
      ensures dom.cacheToDoms - {p} == old(dom.cacheToDoms) - {p}
      ensures PlacedForAll(k, p, gs[..i + 1], view, pls + [pl]) && fresh(pl.Created()) && pl.Created() !! kept
      ensures CreatedBy(pls + [pl]) == CreatedBy(pls) + pl.Created()
      ensures dom.Assoc(p) == old(dom.Assoc(p)) + Pairs(gs[i].caches, pl.Recorded())
      ensures GroupPairs(gs[..i + 1], pls + [pl]) == GroupPairs(gs[..i], pls) + Pairs(gs[i].caches, pl.Recorded())
    {
      pl := ProcessGroup(k, p, gs[i], view, CreatedBy(pls) + kept);
      PlacedStep(k, p, gs, view, pls, pl, i);
    }

    /**
     * The `process*` method of kind `k`, other than annotations, for group `g`: what it places
     * is new, so none of it is among the elements `kept` placed before.
     */
    method ProcessGroup(k: Kind, p: int, g: Group, view: PageView, ghost kept: set<Element>) returns (ghost pl: Placement)
      requires k != Annot && dom.Valid()
      modifies dom`cacheToDoms
      ensures dom.Valid()
      ensures dom.cacheToDoms - {p} == old(dom.cacheToDoms) - {p}
      ensures PlacedFor(k, p, g, view, pl) && fresh(pl.Created()) && pl.Created() !! kept
      ensures dom.Assoc(p) == old(dom.Assoc(p)) + Pairs(g.caches, pl.Recorded())
    {
      match k {
        case XYZ => pl := ProcessXYZ(p, g, view);
        case FitBH => pl := ProcessFitBH(p, g, view);
        case FitR => pl := ProcessFitR(p, g, view);
        case Selection => pl := ProcessSelection(p, g, view);
      }
    }

    /** The annotation-layer handler's loop over the annotation destinations. */
    method ProcessAnnotations(p: int, gs: seq<Group>, view: PageView) returns (ghost pls: seq<Placement>)
      requires dom.Valid() && ContainersFit(p, view)
      modifies dom`cacheToDoms, CachesOfGroups(gs)`color, Containers(view)`classes
      ensures dom.Valid()
      ensures dom.cacheToDoms - {p} == old(dom.cacheToDoms) - {p}
      ensures PlacedForAll(Annot, p, gs, view, pls) && fresh(CreatedBy(pls))
      ensures dom.Assoc(p) == old(dom.Assoc(p)) + GroupPairs(gs, pls)
      ensures forall e | e in Containers(view) ::
                e.classes == old(e.classes) + if e in MarkedContainers(view, gs) then AnnotationClasses else {}
      ensures forall c | c in CachesOfGroups(gs) :: c.color == ColourAfter(view, gs, c, old(c.color))
    {
      pls := [];
      ghost var classes := map e | e in Containers(view) :: e.classes;
      ghost var colours := map c | c in CachesOfGroups(gs) :: c.color;
      ghost var links := dom.Assoc(p);
      for i := 0 to |gs|
        invariant dom.Valid() && ContainersFit(p, view)
        invariant dom.cacheToDoms - {p} == old(dom.cacheToDoms) - {p}
        invariant PlacedForAll(Annot, p, gs[..i], view, pls) && fresh(CreatedBy(pls))
        invariant CreatedBy(pls) !! Containers(view)
        invariant dom.Assoc(p) == links + GroupPairs(gs[..i], pls)
        invariant forall e | e in Containers(view) ::
                    e.classes == classes[e] + if e in MarkedContainers(view, gs[..i]) then AnnotationClasses else {}
        invariant forall c | c in CachesOfGroups(gs) :: c.color == ColourAfter(view, gs[..i], c, colours[c])
      {
        var pl := ProcessAnnotationAfter(p, gs, i, view, pls, links, classes, colours);
        pls := pls + [pl];
      }
      assert gs[..|gs|] == gs;
    }

    /**
     * One turn of the annotation loop: group `i` is processed after the groups before it placed
     * `pls`, starting from the relation `links`, the container classes `classes` and the cache
     * colours `colours`.
     */
    method ProcessAnnotationAfter(p: int, gs: seq<Group>, i: int, view: PageView, ghost pls: seq<Placement>,
                                  ghost links: set<Link>, ghost classes: map<Element, set<string>>,
                                  ghost colours: map<BacklinkCache, Option<Color>>)
      returns (ghost pl: Placement)
      requires dom.Valid() && ContainersFit(p, view) && 0 <= i < |gs|
      requires PlacedForAll(Annot, p, gs[..i], view, pls) && CreatedBy(pls) !! Containers(view)
      requires dom.Assoc(p) == links + GroupPairs(gs[..i], pls)
      requires forall e | e in Containers(view) ::
                 e in classes && e.classes == classes[e] + if e in MarkedContainers(view, gs[..i]) then AnnotationClasses else {}
      requires forall c | c in CachesOfGroups(gs) :: c in colours && c.color == ColourAfter(view, gs[..i], c, colours[c])
      modifies dom`cacheToDoms, gs[i].caches`color, Containers(view)`classes
      ensures dom.Valid() && ContainersFit(p, view)
      ensures dom.cacheToDoms - {p} == old(dom.cacheToDoms) - {p}
      ensures PlacedForAll(Annot, p, gs[..i + 1], view, pls + [pl]) && fresh(pl.Created())
      ensures CreatedBy(pls + [pl]) == CreatedBy(pls) + pl.Created() && CreatedBy(pls + [pl]) !! Containers(view)
      ensures dom.Assoc(p) == links + GroupPairs(gs[..i + 1], pls + [pl])
      ensures forall e | e in Containers(view) ::
                e.classes == classes[e] + if e in MarkedContainers(view, gs[..i + 1]) then AnnotationClasses else {}
      ensures forall c | c in CachesOfGroups(gs) :: c.color == ColourAfter(view, gs[..i + 1], c, colours[c])
    {
      CachesOfGroupsHas(gs, i);
      pl := ProcessAnnotationNext(p, gs, i, view, pls, links, classes);
      forall c | c in CachesOfGroups(gs) {
        ColourAfterStep(view, gs, i, c, colours[c]);
      }
    }

    /** `processAnnotation` for group `i`, with what it adds to the loop's placements, relation and marked containers. */
    method ProcessAnnotationNext(p: int, gs: seq<Group>, i: int, view: PageView, ghost pls: seq<Placement>,
                                 ghost links: set<Link>, ghost classes: map<Element, set<string>>)
      returns (ghost pl: Placement)
      requires dom.Valid() && ContainersFit(p, view) && 0 <= i < |gs|
      requires PlacedForAll(Annot, p, gs[..i], view, pls) && CreatedBy(pls) !! Containers(view)
      requires dom.Assoc(p) == links + GroupPairs(gs[..i], pls)
      requires forall e | e in Containers(view) ::
                 e in classes && e.classes == classes[e] + if e in MarkedContainers(view, gs[..i]) then AnnotationClasses else {}
      modifies dom`cacheToDoms, gs[i].caches`color, Containers(view)`classes
      ensures dom.Valid() && ContainersFit(p, view)
      ensures dom.cacheToDoms - {p} == old(dom.cacheToDoms) - {p}
      ensures PlacedForAll(Annot, p, gs[..i + 1], view, pls + [pl]) && fresh(pl.Created())
      ensures CreatedBy(pls + [pl]) == CreatedBy(pls) + pl.Created() && CreatedBy(pls + [pl]) !! Containers(view)
      ensures dom.Assoc(p) == links + GroupPairs(gs[..i + 1], pls + [pl])
      ensures forall e | e in Containers(view) ::
                e.classes == classes[e] + if e in MarkedContainers(view, gs[..i + 1]) then AnnotationClasses else {}
      ensures !AnnotationFound(view, gs[i]) ==> forall c | c in gs[i].caches :: c.color == old(c.color)
      ensures AnnotationFound(view, gs[i]) ==>
                forall c | c in gs[i].caches :: c.color == Some(RgbColor(view.annotationLayer.value[gs[i].id].color))
    {
      pl := ProcessAnnotation(p, gs[i], view, CreatedBy(pls));
      PlacedStep(Annot, p, gs, view, pls, pl, i);
      MarkedStep(view, gs, i);
      forall e | e in Containers(view)
        ensures e.classes == classes[e] + if e in MarkedContainers(view, gs[..i + 1]) then AnnotationClasses else {}
      {
        MarksCompose(classes[e], e in MarkedContainers(view, gs[..i]), e in MarkedContainers(view, [gs[i]]));
      }
    }

    /**
     * `processXYZ`: when offset icons are on, an icon extending to the left of the decoded
     * `(left, top)` point, recorded under every cache of the group.
     */
    method ProcessXYZ(p: int, g: Group, view: PageView) returns (ghost pl: Placement)
      requires dom.Valid()
      modifies dom`cacheToDoms
      ensures dom.Valid()
      ensures dom.cacheToDoms - {p} == old(dom.cacheToDoms) - {p}
      ensures PlacedFor(XYZ, p, g, view, pl) && fresh(pl.Created())
      ensures dom.Assoc(p) == old(dom.Assoc(p)) + Pairs(g.caches, pl.Recorded())
    {
      pl := NothingPlaced;
      if settings.showBacklinkIconForOffset {
        var (left, top) := codecs.xyzIdToParams(g.id);
        var iconEl := ShowIcon(p, left, top, view, Left);
        var _ := dom.GetCacheToDomsMap(p);
        dom.AddValueForAll(p, g.caches, iconEl);
        pl := Placement(None, [], Some(iconEl));
      }
    }

    /**
     * `processFitBH`: when offset icons are on, an icon at the left edge of the page at the
     * decoded height, recorded under every cache of the group.
     */
    method ProcessFitBH(p: int, g: Group, view: PageView) returns (ghost pl: Placement)
      requires dom.Valid()
      modifies dom`cacheToDoms
      ensures dom.Valid()
      ensures dom.cacheToDoms - {p} == old(dom.cacheToDoms) - {p}
      ensures PlacedFor(FitBH, p, g, view, pl) && fresh(pl.Created())
      ensures dom.Assoc(p) == old(dom.Assoc(p)) + Pairs(g.caches, pl.Recorded())
    {
      pl := NothingPlaced;
      if settings.showBacklinkIconForOffset {
        var top := codecs.fitBHIdToParams(g.id);
        var iconEl := ShowIcon(p, 0.0, top, view, Right);
        var _ := dom.GetCacheToDomsMap(p);
        dom.AddValueForAll(p, g.caches, iconEl);
        pl := Placement(None, [], Some(iconEl));
      }
    }

    /**
     * `processFitR`: a rectangle over the decoded destination rectangle and, when rectangle icons
     * are on, an icon at its top-right corner, both recorded under every cache of the group.
     */
    method ProcessFitR(p: int, g: Group, view: PageView) returns (ghost pl: Placement)
      requires dom.Valid()
      modifies dom`cacheToDoms
      ensures dom.Valid()
      ensures dom.cacheToDoms - {p} == old(dom.cacheToDoms) - {p}
      ensures PlacedFor(FitR, p, g, view, pl) && fresh(pl.Created())
      ensures dom.Assoc(p) == old(dom.Assoc(p)) + Pairs(g.caches, pl.Recorded())
    {
      var r := codecs.fitRIdToParams(g.id);
      var el := PlaceRectInPage(p, r);
      el.AddClasses(FitRClasses);
      var _ := dom.GetCacheToDomsMap(p);
      dom.AddValueForAll(p, g.caches, el);
      var icon: Option<Element> := None;
      if settings.showBacklinkIconForRect {
        var iconEl := ShowIcon(p, r.right, r.top, view, Right);
        dom.AddValueForAll(p, g.caches, iconEl);
        icon := Some(iconEl);
      }
      pl := Placement(None, [el], icon);
      assert SeqElements([el]) == {el};
      PairsUnion(g.caches, {el}, ElementsOfOption(icon));
    }

    /**
     * The merged rectangles `processSelection` places for group `g`: none when the page has no
     * text layer or an empty one.
     */
    function SelectionRects(view: PageView, g: Group): seq<MergedRect> {
      if view.textLayer.None? || |view.textLayer.value.textDivs| == 0 then []
      else codecs.computeMergedHighlightRects(view.textLayer.value, codecs.selectionIdToParams(g.id))
    }

    /**
     * `processSelection`: one rectangle per merged rectangle of the selection, carrying the
     * indices of the text items it covers, and, when selection icons are on and there is a
     * rectangle, an icon at the top-right corner of the last one; all recorded under every cache
     * of the group. The page's relation is created even when the text layer is missing.
     */
    method ProcessSelection(p: int, g: Group, view: PageView) returns (ghost pl: Placement)
      requires dom.Valid()
      modifies dom`cacheToDoms
      ensures dom.Valid()
      ensures p in dom.cacheToDoms && dom.cacheToDoms - {p} == old(dom.cacheToDoms) - {p}
      ensures PlacedFor(Selection, p, g, view, pl) && fresh(pl.Created())
      ensures dom.Assoc(p) == old(dom.Assoc(p)) + Pairs(g.caches, pl.Recorded())
    {
      var _ := dom.GetCacheToDomsMap(p);
      assert dom.cacheToDoms - {p} == old(dom.cacheToDoms) - {p};
      var params := codecs.selectionIdToParams(g.id);
      pl := NothingPlaced;
      if view.textLayer.None? {
        return;
      }
      var textLayer := view.textLayer.value;
      if |textLayer.textDivs| == 0 {
        return;
      }
      var rects := codecs.computeMergedHighlightRects(textLayer, params);
      pl := PlaceSelection(p, g.caches, rects, view);
    }

    /**
     * The part of `processSelection` that runs once the merged rectangles `rects` are computed:
     * their elements, then the optional icon, all recorded under every cache of `caches`.
     */
    method PlaceSelection(p: int, caches: set<BacklinkCache>, rects: seq<MergedRect>, view: PageView)
      returns (ghost pl: Placement)
      requires dom.Valid() && p in dom.cacheToDoms
      modifies dom`cacheToDoms
      ensures dom.Valid() && p in dom.cacheToDoms && dom.cacheToDoms - {p} == old(dom.cacheToDoms) - {p}
      ensures SelectionPlaced(p, rects, view, pl) && fresh(pl.Created())
      ensures dom.Assoc(p) == old(dom.Assoc(p)) + Pairs(caches, pl.Recorded())
    {
      var rectEls := PlaceSelectionRects(p, caches, rects);
      var icon: Option<Element> := None;
      if settings.showBacklinkIconForSelection && |rects| > 0 {
        var last := rects[|rects| - 1].rect;
        var iconEl := ShowIcon(p, last.right, last.top, view, Right);
        dom.AddValueForAll(p, caches, iconEl);
        icon := Some(iconEl);
      }
      pl := Placement(None, rectEls, icon);
      PairsUnion(caches, SeqElements(rectEls), ElementsOfOption(icon));
    }

    /**
     * The loop of `processSelection` over the merged rectangles `rects`: a rectangle element per
     * merged rectangle, recorded under every cache of `caches`.
     */
    method PlaceSelectionRects(p: int, caches: set<BacklinkCache>, rects: seq<MergedRect>) returns (ghost rectEls: seq<Element>)
      requires dom.Valid() && p in dom.cacheToDoms
      modifies dom`cacheToDoms
      ensures dom.Valid() && p in dom.cacheToDoms
      ensures dom.cacheToDoms - {p} == old(dom.cacheToDoms) - {p}
      ensures |rectEls| == |rects|
      ensures forall i, j | 0 <= i < j < |rects| :: rectEls[i] != rectEls[j]
      ensures forall i | 0 <= i < |rects| ::
                fresh(rectEls[i]) && IsPlaced(rectEls[i], p, rects[i].rect, SelectionClasses) &&
                rectEls[i].textIndices == rects[i].indices
      ensures dom.Assoc(p) == old(dom.Assoc(p)) + Pairs(caches, SeqElements(rectEls))
    {
      rectEls := [];
      var i := 0;
      while i < |rects|
        invariant 0 <= i <= |rects| && |rectEls| == i
        invariant forall j, k | 0 <= j < k < i :: rectEls[j] != rectEls[k]
        invariant dom.Valid() && p in dom.cacheToDoms
        invariant dom.cacheToDoms - {p} == old(dom.cacheToDoms) - {p}
        invariant forall j | 0 <= j < i ::
                    fresh(rectEls[j]) && IsPlaced(rectEls[j], p, rects[j].rect, SelectionClasses) &&
                    rectEls[j].textIndices == rects[j].indices
        invariant dom.Assoc(p) == old(dom.Assoc(p)) + Pairs(caches, SeqElements(rectEls))
      {
        var rectEl := PlaceRectInPage(p, rects[i].rect);
        rectEl.AddClasses(SelectionClasses);
        rectEl.textIndices := rects[i].indices;
        dom.AddValueForAll(p, caches, rectEl);
        PairsUnion(caches, SeqElements(rectEls), {rectEl});
        assert SeqElements(rectEls + [rectEl]) == SeqElements(rectEls) + {rectEl};
        rectEls := rectEls + [rectEl];
        i := i + 1;
      }
    }

    /**
     * `processAnnotation`: nothing happens when the page has no annotation layer or the group's
     * annotation is not in it. Otherwise the annotation's container is marked as a backlink,
     * an icon at its top-right corner and a bounding rectangle are placed when their settings
     * are on, all of them are recorded under every cache of the group, and every cache of the
     * group takes the annotation's colour.
     */
    method ProcessAnnotation(p: int, g: Group, view: PageView, ghost kept: set<Element>)
      returns (ghost pl: Placement)
      requires dom.Valid() && ContainersFit(p, view)
      requires kept !! Containers(view)
      modifies dom`cacheToDoms, g.caches`color, Containers(view)`classes
      ensures dom.Valid() && ContainersFit(p, view)
      ensures forall e | e in kept :: unchanged(e`attached, e`classes, e`textIndices)
      ensures dom.cacheToDoms - {p} == old(dom.cacheToDoms) - {p}
      ensures PlacedFor(Annot, p, g, view, pl) && fresh(pl.Created()) && pl.Created() !! Containers(view)
      ensures dom.Assoc(p) == old(dom.Assoc(p)) + Pairs(g.caches, pl.Recorded())
      ensures forall e | e in Containers(view) ::
                e.classes == old(e.classes) + if e in MarkedContainers(view, [g]) then AnnotationClasses else {}
      ensures !AnnotationFound(view, g) ==>
                dom.cacheToDoms == old(dom.cacheToDoms) && forall c | c in g.caches :: c.color == old(c.color)
      ensures AnnotationFound(view, g) ==>
                var a := view.annotationLayer.value[g.id];
                a.container.classes == old(a.container.classes) + AnnotationClasses &&
                forall c | c in g.caches :: c.color == Some(RgbColor(a.color))
    {
      pl := NothingPlaced;
      if view.annotationLayer.None? {
        return;
      }
      var layer := view.annotationLayer.value;
      if g.id !in layer {
        return;
      }
      pl := MarkAnnotation(p, g.caches, layer[g.id], view);
    }

    /**
     * The part of `processAnnotation` that runs once annotation `a` is found: it marks the
     * container, places the optional icon and bounding rectangle, records them all under every
     * cache of `caches` and gives every cache the annotation's colour.
     */
    method MarkAnnotation(p: int, caches: set<BacklinkCache>, a: Annotation, view: PageView) returns (ghost pl: Placement)
      requires dom.Valid() && a.container.page == p && a.container.attached
      modifies dom`cacheToDoms, caches`color, a.container`classes
      ensures dom.Valid()
      ensures dom.cacheToDoms - {p} == old(dom.cacheToDoms) - {p}
      ensures AnnotationPlaced(p, a, view, pl) && fresh(pl.Created())
      ensures a.container.classes == old(a.container.classes) + AnnotationClasses
      ensures forall c | c in caches :: c.color == Some(RgbColor(a.color))
      ensures dom.Assoc(p) == old(dom.Assoc(p)) + Pairs(caches, pl.Recorded())
    {
      a.container.AddClasses(AnnotationClasses);
      var iconEl: Option<Element> := None;
      if settings.showBacklinkIconForAnnotation {
        var el := ShowIcon(p, a.rect.right, a.rect.top, view, Right);
        iconEl := Some(el);
      }
      var rectEl: Option<Element> := None;
      if settings.showBoundingRectForBacklinkedAnnot {
        var el := PlaceRectInPage(p, a.rect);
        el.AddClasses(BoundingRectClasses);
        rectEl := Some(el);
      }
      pl := Placement(Some(a.container), if rectEl.Some? then [rectEl.value] else [], iconEl);
      assert pl.Recorded() == {a.container} + ElementsOfOption(iconEl) + ElementsOfOption(rectEl);
      var _ := dom.GetCacheToDomsMap(p);
      assert dom.cacheToDoms - {p} == old(dom.cacheToDoms) - {p};
      RecordAnnotation(p, caches, a.container, iconEl, rectEl, a.color);
    }

    /**
     * The loop of `processAnnotation` over the group's caches: each records the container and
     * the optional icon and bounding rectangle, and takes the annotation's colour `color`.
     */
    method RecordAnnotation(p: int, caches: set<BacklinkCache>, container: Element, iconEl: Option<Element>,
                            rectEl: Option<Element>, color: Rgb)
      requires dom.Valid() && p in dom.cacheToDoms
      requires container.page == p && container.attached
      requires iconEl.Some? ==> iconEl.value.page == p && iconEl.value.attached
      requires rectEl.Some? ==> rectEl.value.page == p && rectEl.value.attached
      modifies dom`cacheToDoms, caches`color
      ensures dom.Valid()
      ensures dom.cacheToDoms - {p} == old(dom.cacheToDoms) - {p}
      ensures p in dom.cacheToDoms
      ensures dom.cacheToDoms[p] == old(dom.cacheToDoms[p]) + Pairs(caches, {container} + ElementsOfOption(iconEl) + ElementsOfOption(rectEl))
      ensures forall c | c in caches :: c.color == Some(RgbColor(color))
    {
      ghost var els := {container} + ElementsOfOption(iconEl) + ElementsOfOption(rectEl);
      var todo := caches;
      ghost var done: set<BacklinkCache> := {};
      while todo != {}
        invariant done + todo == caches
        invariant dom.Valid() && p in dom.cacheToDoms
        invariant dom.cacheToDoms - {p} == old(dom.cacheToDoms) - {p}
        invariant dom.cacheToDoms[p] == old(dom.cacheToDoms[p]) + Pairs(done, els)
        invariant forall c | c in done :: c.color == Some(RgbColor(color))
        decreases todo
      {
        var c :| c in todo;
        RecordForCache(p, c, container, iconEl, rectEl);
        PairsAddCache(done, c, els);
        c.SetColor(RgbColor(color));
        done := done + {c};
        todo := todo - {c};
      }
    }

    /** One iteration of `processAnnotation`'s loop: the elements recorded under cache `c`. */
    method RecordForCache(p: int, c: BacklinkCache, container: Element, iconEl: Option<Element>, rectEl: Option<Element>)
      requires dom.Valid() && p in dom.cacheToDoms
      requires container.page == p && container.attached
      requires iconEl.Some? ==> iconEl.value.page == p && iconEl.value.attached
      requires rectEl.Some? ==> rectEl.value.page == p && rectEl.value.attached
      modifies dom`cacheToDoms
      ensures dom.Valid() && p in dom.cacheToDoms
      ensures dom.cacheToDoms - {p} == old(dom.cacheToDoms) - {p}
      ensures dom.cacheToDoms[p] == old(dom.cacheToDoms[p]) + Pairs({c}, {container} + ElementsOfOption(iconEl) + ElementsOfOption(rectEl))
    {
      dom.AddValue(p, c, container);
      if iconEl.Some? {
        dom.AddValue(p, c, iconEl.value);
      }
      if rectEl.Some? {
        dom.AddValue(p, c, rectEl.value);
      }
      PairsOfOne(c, container, iconEl, rectEl);
    }

    /** Annotation groups mark only containers of the page view. */
    lemma MarkedInContainers(p: int, gs: seq<Group>, view: PageView, pls: seq<Placement>)
      requires PlacedForAll(Annot, p, gs, view, pls)
      ensures MarkedBy(pls) <= Containers(view)
    {
      forall i | 0 <= i < |pls| && pls[i].marked.Some? ensures pls[i].marked.value in Containers(view) {
        CreatedIn(pls, i);
      }
    }

    /** Only annotation groups mark containers. */
    lemma NothingMarked(k: Kind, p: int, gs: seq<Group>, view: PageView, pls: seq<Placement>)
      requires k != Annot && PlacedForAll(k, p, gs, view, pls)
      ensures MarkedBy(pls) == {}
    {
      forall i | 0 <= i < |pls| ensures pls[i].marked.None? {
        CreatedIn(pls, i);
      }
    }

    /**
     * One more group processed: what the loops over `gs` placed for the first `i` groups,
     * followed by what was placed for group `i`, is what they placed for the first `i + 1`.
     */
    lemma PlacedStep(k: Kind, p: int, gs: seq<Group>, view: PageView, pls: seq<Placement>, pl: Placement, i: int)
      requires 0 <= i < |gs| && PlacedForAll(k, p, gs[..i], view, pls) && PlacedFor(k, p, gs[i], view, pl)
      requires CreatedBy(pls) !! pl.Created()
      ensures PlacedForAll(k, p, gs[..i + 1], view, pls + [pl])
      ensures CreatedBy(pls + [pl]) == CreatedBy(pls) + pl.Created()
      ensures GroupPairs(gs[..i + 1], pls + [pl]) == GroupPairs(gs[..i], pls) + Pairs(gs[i].caches, pl.Recorded())
    {
      CreatedByAppend(pls, pl);
      GroupPairsAppend(gs, pls, pl, i);
      forall j | 0 <= j < i ensures pls[j].Created() !! pl.Created() {
        CreatedIn(pls, j);
      }
      forall j | 0 <= j < i + 1
        ensures PlacedFor(k, p, gs[..i + 1][j], view, (pls + [pl])[j])
      {
        CreatedIn(pls + [pl], j);
        if j < i {
          CreatedIn(pls, j);
          assert gs[..i + 1][j] == gs[..i][j];
        }
      }
    }
  }

  /** The `i`-th placement's elements are among those created by the run. */
  lemma CreatedIn(pls: seq<Placement>, i: int)
    requires 0 <= i < |pls|
    ensures pls[i].Created() <= CreatedBy(pls)
  {
  }

  lemma CreatedByAppend(pls: seq<Placement>, pl: Placement)
    ensures CreatedBy(pls + [pl]) == CreatedBy(pls) + pl.Created()
  {
    var all := pls + [pl];
    forall e | e in CreatedBy(all) ensures e in CreatedBy(pls) + pl.Created() {
      var i :| 0 <= i < |all| && e in all[i].Created();
      if i < |pls| {
        assert all[i] == pls[i];
        CreatedIn(pls, i);
      }
    }
    forall e | e in CreatedBy(pls) ensures e in CreatedBy(all) {
      var i :| 0 <= i < |pls| && e in pls[i].Created();
      assert all[i] == pls[i];
      CreatedIn(all, i);
    }
    CreatedIn(all, |pls|);
  }

  lemma GroupPairsAppend(gs: seq<Group>, pls: seq<Placement>, pl: Placement, i: int)
    requires 0 <= i < |gs| && |pls| == i
    ensures GroupPairs(gs[..i + 1], pls + [pl]) == GroupPairs(gs[..i], pls) + Pairs(gs[i].caches, pl.Recorded())
  {
    var gs', pls' := gs[..i + 1], pls + [pl];
    forall x | x in GroupPairs(gs', pls') ensures x in GroupPairs(gs[..i], pls) + Pairs(gs[i].caches, pl.Recorded()) {
      var j, c, e :| 0 <= j < i + 1 && c in gs'[j].caches && e in pls'[j].Recorded() && x == (c, e);
      if j < i {
        assert gs'[j] == gs[..i][j] && pls'[j] == pls[j];
      }
    }
    forall x | x in GroupPairs(gs[..i], pls) ensures x in GroupPairs(gs', pls') {
      var j, c, e :| 0 <= j < i && c in gs[..i][j].caches && e in pls[j].Recorded() && x == (c, e);
      assert gs'[j] == gs[..i][j] && pls'[j] == pls[j];
    }
    forall x | x in Pairs(gs[i].caches, pl.Recorded()) ensures x in GroupPairs(gs', pls') {
      assert gs'[i] == gs[i] && pls'[i] == pl;
    }
  }

  /** A relation grown by a loop's pairs has, besides its earlier elements, only elements the loop created or marked. */
  lemma GroupPairsElements(links: set<Link>, gs: seq<Group>, pls: seq<Placement>)
    requires |pls| == |gs|
    ensures (set l | l in links + GroupPairs(gs, pls) :: l.1) <= (set l | l in links :: l.1) + CreatedBy(pls) + MarkedBy(pls)
  {
    forall l | l in GroupPairs(gs, pls) ensures l.1 in CreatedBy(pls) + MarkedBy(pls) {
      var i, c, e :| 0 <= i < |gs| && c in gs[i].caches && e in pls[i].Recorded() && l == (c, e);
      CreatedIn(pls, i);
    }
  }

  /** The page-ready handler's three loops, which mark nothing, add only elements they created to a relation `links`. */
  lemma OffsetElements(links: set<Link>, gx: seq<Group>, x: seq<Placement>, gy: seq<Group>, y: seq<Placement>,
                       gz: seq<Group>, z: seq<Placement>)
    requires |x| == |gx| && |y| == |gy| && |z| == |gz|
    requires MarkedBy(x) == {} && MarkedBy(y) == {} && MarkedBy(z) == {}
    ensures (set l | l in links + GroupPairs(gx, x) + GroupPairs(gy, y) + GroupPairs(gz, z) :: l.1)
            <= (set l | l in links :: l.1) + CreatedBy(x) + CreatedBy(y) + CreatedBy(z)
  {
    GroupPairsElements(links, gx, x);
    GroupPairsElements(links + GroupPairs(gx, x), gy, y);
    GroupPairsElements(links + GroupPairs(gx, x) + GroupPairs(gy, y), gz, z);
  }

  /** Marking a container twice adds its classes once. */
  lemma MarksCompose(s: set<string>, before: bool, now: bool)
    ensures (s + if before then AnnotationClasses else {}) + (if now then AnnotationClasses else {}) ==
            s + if before || now then AnnotationClasses else {}
  {
  }

  lemma CachesOfGroupsHas(gs: seq<Group>, i: int)
    requires 0 <= i < |gs|
    ensures gs[i].caches <= CachesOfGroups(gs)
  {
  }

  lemma MarkedStep(view: PageView, gs: seq<Group>, i: int)
    requires 0 <= i < |gs|
    ensures MarkedContainers(view, gs[..i + 1]) == MarkedContainers(view, gs[..i]) + MarkedContainers(view, [gs[i]])
  {
    assert gs[..i + 1] == gs[..i] + [gs[i]];
  }

  lemma ColourAfterStep(view: PageView, gs: seq<Group>, i: int, c: BacklinkCache, before: Option<Color>)
    requires 0 <= i < |gs|
    ensures ColourAfter(view, gs[..i + 1], c, before) ==
            if c in gs[i].caches && AnnotationFound(view, gs[i]) then Some(RgbColor(view.annotationLayer.value[gs[i].id].color))
            else ColourAfter(view, gs[..i], c, before)
  {
    var done := gs[..i + 1];
    assert |done| == i + 1 && done[|done| - 1] == gs[i] && done[..|done| - 1] == gs[..i];
  }

  /** The pairs of one cache with an annotation's container and its optional icon and rectangle. */
  lemma PairsOfOne(c: BacklinkCache, container: Element, icon: Option<Element>, rect: Option<Element>)
    ensures Pairs({c}, {container} + ElementsOfOption(icon) + ElementsOfOption(rect)) ==
            {(c, container)} + (if icon.Some? then {(c, icon.value)} else {})
            + (if rect.Some? then {(c, rect.value)} else {})
  {
  }

  lemma PairsAddCache(done: set<BacklinkCache>, c: BacklinkCache, els: set<Element>)
    ensures Pairs(done + {c}, els) == Pairs(done, els) + Pairs({c}, els)
  {
  }

  lemma PairsUnion(caches: set<BacklinkCache>, a: set<Element>, b: set<Element>)
    ensures Pairs(caches, a + b) == Pairs(caches, a) + Pairs(caches, b)
  {
  }
}
