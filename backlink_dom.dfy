/**
 * The per-page bookkeeping of the backlink overlays (`BacklinkDomManager` in
 * src/backlink-visualizer.ts): a readiness record with three flags per page and, per page, the
 * relation between backlink caches and the overlay elements they produced.
 */
module BacklinkDom {
  import opened Wrappers
  import opened Strings
  import opened Geometry

  datatype Rgb = Rgb(r: int, g: int, b: int)

  /** A backlink's colour: a named palette colour or an RGB triple. */
  datatype Color = Named(name: string) | RgbColor(rgb: Rgb)

  /** One indexed backlink. Its colour is the only part the overlay engine changes. */
  class BacklinkCache {
    const sourcePath: string
    /** The 1-based page the backlink points into, when it has one. */
    const page: Option<int>
    var color: Option<Color>

    constructor (sourcePath: string, page: Option<int>, color: Option<Color>)
      ensures this.sourcePath == sourcePath && this.page == page && this.color == color
    {
      this.sourcePath := sourcePath;
      this.page := page;
      this.color := color;
    }

    method SetColor(c: Color)
      modifies this`color
      ensures color == Some(c)
    {
      color := Some(c);
    }
  }

  /**
   * An element of the rendered page. `inHighlightLayer` says whether it lies inside the
   * backlink highlight layer (true of everything the backend places for this engine, false of
   * the native annotation containers); `attached` says whether it is still part of the page.
   */
  class Element {
    const page: int
    const rect: Rect
    const inHighlightLayer: bool
    var attached: bool
    var classes: set<string>
    /** `dataset.highlightColor`. */
    var highlightColor: Option<string>
    /** The three `--pdf-plus-*-color` CSS properties, which are always set together. */
    var rgbColor: Option<Rgb>
    /** `dataset.textIndices`, kept as the list of indices rather than its comma-joined text. */
    var textIndices: seq<int>

    /** A rectangle placed by the backend inside the highlight layer of `page`. */
    constructor Placed(page: int, rect: Rect)
      ensures this.page == page && this.rect == rect && inHighlightLayer && attached
      ensures classes == {} && highlightColor == None && rgbColor == None && textIndices == []
    {
      this.page := page;
      this.rect := rect;
      inHighlightLayer := true;
      attached := true;
      classes := {};
      highlightColor := None;
      rgbColor := None;
      textIndices := [];
    }

    /** A native annotation container rendered by the document viewer itself. */
    constructor Native(page: int, rect: Rect)
      ensures this.page == page && this.rect == rect && !inHighlightLayer && attached
      ensures classes == {} && highlightColor == None && rgbColor == None && textIndices == []
    {
      this.page := page;
      this.rect := rect;
      inHighlightLayer := false;
      attached := true;
      classes := {};
      highlightColor := None;
      rgbColor := None;
      textIndices := [];
    }

    /** `el.remove()`. */
    method Remove()
      modifies this`attached
      ensures !attached
    {
      attached := false;
    }

    /** `el.addClasses(cs)`. */
    method AddClasses(cs: set<string>)
      modifies this`classes
      ensures classes == old(classes) + cs
    {
      classes := classes + cs;
    }
  }

  /** `otherEl.addClass(c)` for every element of `targets`. */
  method AddClassToAll(targets: set<Element>, c: string)
    modifies targets`classes
    ensures forall e :: e in targets ==> e.classes == old(e.classes) + {c}
  {
    var todo := targets;
    while todo != {}
      invariant todo <= targets
      invariant forall e :: e in targets - todo ==> e.classes == old(e.classes) + {c}
      invariant forall e :: e in todo ==> e.classes == old(e.classes)
      decreases todo
    {
      var e :| e in todo;
      e.classes := e.classes + {c};
      todo := todo - {e};
    }
  }

  /** `otherEl.removeClass(c)` for every element of `targets`. */
  method RemoveClassFromAll(targets: set<Element>, c: string)
    modifies targets`classes
    ensures forall e :: e in targets ==> e.classes == old(e.classes) - {c}
  {
    var todo := targets;
    while todo != {}
      invariant todo <= targets
      invariant forall e :: e in targets - todo ==> e.classes == old(e.classes) - {c}
      invariant forall e :: e in todo ==> e.classes == old(e.classes)
      decreases todo
    {
      var e :| e in todo;
      e.classes := e.classes - {c};
      todo := todo - {e};
    }
  }

  /** A non-empty set of pages has a page. */
  lemma SomePage(pages: set<int>)
    requires pages != {}
    ensures exists p :: p in pages
  {
    if forall p :: p !in pages {
      assert false;
    }
  }

  /** The readiness record of one page. */
  datatype Status = Status(onPageReady: bool, onTextLayerReady: bool, onAnnotationLayerReady: bool) {
    /** `isPageProcessed`: every layer of the page has arrived. */
    predicate Processed() {
      onPageReady && onTextLayerReady && onAnnotationLayerReady
    }
  }

  /** The record a page starts with, and the one a cleared page returns to. */
  const Unready := Status(false, false, false)

  /** A partial record: a flag that is `None` is absent from the update. */
  datatype StatusUpdate = StatusUpdate(
    onPageReady: Option<bool>, onTextLayerReady: Option<bool>, onAnnotationLayerReady: Option<bool>)

  const ResetUpdate := StatusUpdate(Some(false), Some(false), Some(false))

  /** `Object.assign(status, update)`: the flags present in the update win, the others stay. */
  function Merge(s: Status, u: StatusUpdate): (r: Status)
    ensures r.onPageReady == u.onPageReady.GetOr(s.onPageReady)
    ensures r.onTextLayerReady == u.onTextLayerReady.GetOr(s.onTextLayerReady)
    ensures r.onAnnotationLayerReady == u.onAnnotationLayerReady.GetOr(s.onAnnotationLayerReady)
  {
    Status(
      if u.onPageReady.Some? then u.onPageReady.value else s.onPageReady,
      if u.onTextLayerReady.Some? then u.onTextLayerReady.value else s.onTextLayerReady,
      if u.onAnnotationLayerReady.Some? then u.onAnnotationLayerReady.value else s.onAnnotationLayerReady)
  }

  /** A merge-update that sets one flag true makes the page processed exactly when the other two already were. */
  lemma MergeCompletes(s: Status)
    ensures Merge(s, StatusUpdate(Some(true), None, None)).Processed()
            <==> s.onTextLayerReady && s.onAnnotationLayerReady
    ensures Merge(s, StatusUpdate(None, Some(true), None)).Processed()
            <==> s.onPageReady && s.onAnnotationLayerReady
    ensures Merge(s, StatusUpdate(None, None, Some(true))).Processed()
            <==> s.onPageReady && s.onTextLayerReady
  {
  }

  /** One pair of the cache-to-element relation. */
  type Link = (BacklinkCache, Element)

  /** A registered co-highlight listener: the element it is on, its cache and the cache's page. */
  type Hook = (Element, BacklinkCache, int)

  /** `cacheToDoms.get(cache)` on a page's relation. */
  function ElementsOf(links: set<Link>, c: BacklinkCache): set<Element> {
    set l | l in links && l.0 == c :: l.1
  }

  /** The listeners `hookClassAdderOnMouseOver` registers for every pair of `links`. */
  function HooksFor(links: set<Link>): set<Hook> {
    set l | l in links && l.0.page.Some? :: (l.1, l.0, l.0.page.value)
  }

  /** The listeners `hookClassAdderOnMouseOver` registers for cache `c` on each element of `els`. */
  function HooksOf(c: BacklinkCache, els: set<Element>): set<Hook> {
    if c.page.Some? then set e | e in els :: (e, c, c.page.value) else {}
  }

  /** The pairs of a relation whose cache is one of `caches`. */
  function Restrict(links: set<Link>, caches: set<BacklinkCache>): set<Link> {
    set l | l in links && l.0 in caches
  }

  /** Every pair of a cache of `caches` with an element of `els`. */
  function Pairs(caches: set<BacklinkCache>, els: set<Element>): set<Link> {
    set c, e | c in caches && e in els :: (c, e)
  }

  lemma PairsStep(caches: set<BacklinkCache>, c: BacklinkCache, e: Element)
    ensures Pairs(caches + {c}, {e}) == Pairs(caches, {e}) + {(c, e)}
  {
  }

  /** The caches of a relation. */
  function CachesOf(links: set<Link>): set<BacklinkCache> {
    set l | l in links :: l.0
  }

  /** A snapshot of the colours of the caches of a relation. */
  ghost function ColoursOf(links: set<Link>): map<BacklinkCache, Option<Color>>
    reads CachesOf(links)`color
  {
    map c | c in CachesOf(links) :: c.color
  }

  /** The lower-cased names of the named colours (as given by `colours`) of the caches linked to `e`. */
  ghost function NamesFor(links: set<Link>, colours: map<BacklinkCache, Option<Color>>, e: Element): set<string> {
    set l | l in links && l.1 == e && l.0 in colours && colours[l.0].Some? && colours[l.0].value.Named?
      :: AsciiLower(colours[l.0].value.name)
  }

  /** The RGB colours (as given by `colours`) of the caches linked to `e`. */
  ghost function RgbsFor(links: set<Link>, colours: map<BacklinkCache, Option<Color>>, e: Element): set<Rgb> {
    set l | l in links && l.1 == e && l.0 in colours && colours[l.0].Some? && colours[l.0].value.RgbColor?
      :: colours[l.0].value.rgb
  }

  /** The colour attributes of an element: `dataset.highlightColor` and the RGB colour properties. */
  type Style = (Option<string>, Option<Rgb>)

  /** The colour attributes of the elements of `elems`. */
  ghost function StyleSnapshot(elems: set<Element>): (m: map<Element, Style>)
    reads elems`highlightColor, elems`rgbColor
    ensures m.Keys == elems
    ensures forall x | x in elems :: m[x] == (x.highlightColor, x.rgbColor)
  {
    map x | x in elems :: (x.highlightColor, x.rgbColor)
  }

  /**
   * Every element of `now` is styled from the colours of its pairs in `links` whose caches are in
   * `done`, starting from the attributes it had in `start`.
   */
  ghost predicate StyledAll(links: set<Link>, done: set<BacklinkCache>, colours: map<BacklinkCache, Option<Color>>,
                            now: map<Element, Style>, start: map<Element, Style>)
  {
    forall x | x in now && x in start ::
      StyledFrom(NamesFor(Restrict(links, done), colours, x), RgbsFor(Restrict(links, done), colours, x),
                 now[x].0, now[x].1, start[x].0, start[x].1)
  }

  /**
   * The effect of one cache's colour `color` on an element's colour attributes, from `name`, `rgb`
   * to `name'`, `rgb'`: a named colour sets the name (lower-cased), an RGB colour the RGB
   * properties, and no colour leaves both.
   */
  predicate Painted(color: Option<Color>, name: Option<string>, rgb: Option<Rgb>, name': Option<string>, rgb': Option<Rgb>) {
    match color
    case Some(Named(n)) => name' == Some(AsciiLower(n)) && rgb' == rgb
    case Some(RgbColor(x)) => rgb' == Some(x) && name' == name
    case None => name' == name && rgb' == rgb
  }

  /**
   * `now` is `prev` after colouring the elements of `els` with `color`: those elements are
   * painted, the others keep their attributes.
   */
  ghost predicate PaintedFrom(prev: map<Element, Style>, now: map<Element, Style>, els: set<Element>, color: Option<Color>) {
    now.Keys == prev.Keys &&
    (forall x | x in prev && x in els :: Painted(color, prev[x].0, prev[x].1, now[x].0, now[x].1)) &&
    (forall x | x in prev && x !in els :: now[x] == prev[x])
  }

  /**
   * An element whose linked caches have the lower-cased colour names `names` and the RGB colours
   * `rgbs` carries one of them for each kind of colour that one of them has, and keeps its earlier
   * value (`name0`, `rgb0`) for a kind that none of them has. Which cache wins is the iteration
   * order of the relation, which the model leaves open.
   */
  predicate StyledFrom(names: set<string>, rgbs: set<Rgb>, name: Option<string>, rgb: Option<Rgb>,
                       name0: Option<string>, rgb0: Option<Rgb>)
  {
    (names == {} ==> name == name0) &&
    (names != {} ==> name.Some? && name.value in names) &&
    (rgbs == {} ==> rgb == rgb0) &&
    (rgbs != {} ==> rgb.Some? && rgb.value in rgbs)
  }

  class DomManager {
    /** `pagewiseCacheToDomsMap`: page number to its cache-element relation. */
    var cacheToDoms: map<int, set<Link>>
    /** `pagewiseStatus`. */
    var pageStatus: map<int, Status>
    /** The co-highlight listeners registered so far (they are never unregistered). */
    var hoverHooks: set<Hook>
    /** The mouse-out listeners that a mouse-over has registered and that have not fired yet. */
    var pendingMouseOut: multiset<Hook>
    /** The pages post-processed so far, in order. */
    ghost var postProcessed: seq<int>

    constructor ()
      ensures cacheToDoms == map[] && pageStatus == map[] && postProcessed == []
      ensures hoverHooks == {} && pendingMouseOut == multiset{}
      ensures Valid()
    {
      cacheToDoms := map[];
      pageStatus := map[];
      hoverHooks := {};
      pendingMouseOut := multiset{};
      postProcessed := [];
    }

    /** The relation of page `p`; a page without an entry has the empty relation. */
    ghost function Assoc(p: int): set<Link>
      reads this`cacheToDoms
    {
      if p in cacheToDoms then cacheToDoms[p] else {}
    }

    /** The readiness record of page `p`; a page without an entry is unready. */
    ghost function StatusOf(p: int): Status
      reads this`pageStatus
    {
      if p in pageStatus then pageStatus[p] else Unready
    }

    ghost function ElemsIn(p: int): set<Element>
      reads this`cacheToDoms
    {
      set l | l in Assoc(p) :: l.1
    }

    ghost function AllElems(): set<Element>
      reads this`cacheToDoms
    {
      set p, l | p in cacheToDoms && l in cacheToDoms[p] :: l.1
    }

    /** Every element of a page's relation is an element of that page and is still attached. */
    ghost predicate Valid()
      reads this`cacheToDoms, AllElems()`attached
    {
      forall p, l | p in cacheToDoms && l in cacheToDoms[p] :: l.1.page == p && l.1.attached
    }

    /** `getCacheToDomsMap`: the page's relation, created empty on first use. */
    method GetCacheToDomsMap(p: int) returns (links: set<Link>)
      requires Valid()
      modifies this`cacheToDoms
      ensures Valid()
      ensures links == old(Assoc(p))
      ensures cacheToDoms == old(cacheToDoms)[p := links]
      ensures AllElems() == old(AllElems())
    {
      if p !in cacheToDoms {
        cacheToDoms := cacheToDoms[p := {}];
        forall e | e in AllElems() ensures e in old(AllElems()) {
          var q, l :| q in cacheToDoms && l in cacheToDoms[q] && l.1 == e;
          assert q != p;
        }
        forall e | e in old(AllElems()) ensures e in AllElems() {
          var q, l :| q in old(cacheToDoms) && l in old(cacheToDoms)[q] && l.1 == e;
          assert q in cacheToDoms && l in cacheToDoms[q];
        }
      }
      links := cacheToDoms[p];
    }

    /** `getStatus`: the page's record, created all-false on first use. */
    method GetStatus(p: int) returns (s: Status)
      modifies this`pageStatus
      ensures s == old(StatusOf(p))
      ensures p !in old(pageStatus) ==> s == Unready
      ensures pageStatus == old(pageStatus)[p := s]
    {
      if p !in pageStatus {
        pageStatus := pageStatus[p := Unready];
      }
      s := pageStatus[p];
    }

    /** `isPageProcessed`: true exactly when all three flags of the page are true. */
    method IsPageProcessed(p: int) returns (b: bool)
      modifies this`pageStatus
      ensures b <==> old(StatusOf(p)).onPageReady && old(StatusOf(p)).onTextLayerReady
                     && old(StatusOf(p)).onAnnotationLayerReady
      ensures pageStatus == old(pageStatus)[p := old(StatusOf(p))]
    {
      var s := GetStatus(p);
      b := s.onPageReady && s.onTextLayerReady && s.onAnnotationLayerReady;
    }

    /** `updateStatus`: merge `u` into page `p`'s record; no other page's record changes. */
    method UpdateStatus(p: int, u: StatusUpdate)
      modifies this`pageStatus
      ensures pageStatus == old(pageStatus)[p := Merge(old(StatusOf(p)), u)]
    {
      var s := GetStatus(p);
      pageStatus := pageStatus[p := Merge(s, u)];
    }

    /**
     * `clearDomInPage`: detach every element of the page's relation that lies in the highlight
     * layer (native annotation containers stay attached), drop the relation and reset the
     * page's flags to all-false.
     */
    method ClearDomInPage(p: int)
      requires Valid()
      modifies this`cacheToDoms, this`pageStatus, ElemsIn(p)`attached
      ensures Valid()
      ensures cacheToDoms == old(cacheToDoms) - {p}
      ensures pageStatus == old(pageStatus)[p := Unready]
      ensures forall e :: e in old(ElemsIn(p)) ==> e.attached == !e.inHighlightLayer
    {
      var links := GetCacheToDomsMap(p);
      var all := set l | l in links :: l.1;
      var todo := all;
      while todo != {}
        invariant todo <= all
        invariant cacheToDoms == old(cacheToDoms)[p := links]
        invariant pageStatus == old(pageStatus)
        invariant forall e :: e in all - todo ==> e.attached == !e.inHighlightLayer
        invariant forall e :: e in todo ==> e.attached
        decreases todo
      {
        var e :| e in todo;
        if e.inHighlightLayer {
          e.Remove();
        }
        todo := todo - {e};
      }
      cacheToDoms := cacheToDoms - {p};
      UpdateStatus(p, ResetUpdate);
      assert Merge(old(StatusOf(p)), ResetUpdate) == Unready;
    }

    /** `clear`: `clearDomInPage` for every page that has a relation. */
    method Clear()
      requires Valid()
      modifies this`cacheToDoms, this`pageStatus, AllElems()`attached
      ensures Valid()
      ensures cacheToDoms == map[]
      ensures pageStatus == old(pageStatus) + map p | p in old(cacheToDoms) :: Unready
      ensures forall e :: e in old(AllElems()) ==> e.attached == !e.inHighlightLayer
    {
      var todo := cacheToDoms.Keys;
      while todo != {}
        invariant Valid()
        invariant todo <= old(cacheToDoms).Keys
        invariant cacheToDoms == old(cacheToDoms) - (old(cacheToDoms).Keys - todo)
        invariant pageStatus == old(pageStatus) + map q | q in old(cacheToDoms) && q !in todo :: Unready
        invariant forall e :: e in old(AllElems()) ==>
                    if e.page in todo then e.attached else e.attached == !e.inHighlightLayer
        decreases todo
      {
        SomePage(todo);
        var p :| p in todo;
        ClearDomInPage(p);
        todo := todo - {p};
      }
    }

    /** `hookClassAdderOnMouseOver`: a listener is registered only when the cache has a page. */
    method HookClassAdderOnMouseOver(e: Element, c: BacklinkCache)
      modifies this`hoverHooks
      ensures hoverHooks == old(hoverHooks) + (if c.page.Some? then {(e, c, c.page.value)} else {})
    {
      if c.page.Some? {
        hoverHooks := hoverHooks + {(e, c, c.page.value)};
      }
    }

    /**
     * The `mouseover` listener of hook `h` = (element, cache, page): every element the cache has
     * on that page (the page's relation is created empty on first use) gets the class
     * `is-hovered`, and a `mouseout` listener is registered on the element.
     */
    method HoverListener(h: Hook)
      requires Valid() && h in hoverHooks
      modifies this`cacheToDoms, this`pendingMouseOut, ElementsOf(Assoc(h.2), h.1)`classes
      ensures Valid()
      ensures cacheToDoms == old(cacheToDoms)[h.2 := old(Assoc(h.2))]
      ensures pendingMouseOut == old(pendingMouseOut) + multiset{h}
      ensures forall e | e in old(ElementsOf(Assoc(h.2), h.1)) :: e.classes == old(e.classes) + {"is-hovered"}
    {
      var links := GetCacheToDomsMap(h.2);
      AddClassToAll(ElementsOf(links, h.1), "is-hovered");
      pendingMouseOut := pendingMouseOut + multiset{h};
    }

    /**
     * A pending `mouseout` listener registered by hook `h`: every element the cache has on that
     * page now loses the class `is-hovered`, and the listener unregisters itself.
     */
    method MouseOutListener(h: Hook)
      requires Valid() && h in pendingMouseOut
      modifies this`cacheToDoms, this`pendingMouseOut, ElementsOf(Assoc(h.2), h.1)`classes
      ensures Valid()
      ensures cacheToDoms == old(cacheToDoms)[h.2 := old(Assoc(h.2))]
      ensures pendingMouseOut == old(pendingMouseOut) - multiset{h}
      ensures forall e | e in old(ElementsOf(Assoc(h.2), h.1)) :: e.classes == old(e.classes) - {"is-hovered"}
    {
      var links := GetCacheToDomsMap(h.2);
      RemoveClassFromAll(ElementsOf(links, h.1), "is-hovered");
      pendingMouseOut := pendingMouseOut - multiset{h};
    }

    /**
     * `cacheToDoms.addValue(c, e)` on page `p`'s relation, which exists; `e` is an attached
     * element of that page.
     */
    method AddValue(p: int, c: BacklinkCache, e: Element)
      requires Valid() && p in cacheToDoms && e.page == p && e.attached
      modifies this`cacheToDoms
      ensures Valid()
      ensures p in cacheToDoms && cacheToDoms - {p} == old(cacheToDoms) - {p}
      ensures cacheToDoms[p] == old(cacheToDoms[p]) + {(c, e)}
    {
      cacheToDoms := cacheToDoms[p := cacheToDoms[p] + {(c, e)}];
    }

    /** `for (const cache of caches) cacheToDoms.addValue(cache, e)` on page `p`'s relation. */
    method AddValueForAll(p: int, caches: set<BacklinkCache>, e: Element)
      requires Valid() && p in cacheToDoms && e.page == p && e.attached
      modifies this`cacheToDoms
      ensures Valid()
      ensures p in cacheToDoms && cacheToDoms - {p} == old(cacheToDoms) - {p}
      ensures cacheToDoms[p] == old(cacheToDoms[p]) + Pairs(caches, {e})
    {
      var todo := caches;
      while todo != {}
        invariant Valid() && todo <= caches
        invariant p in cacheToDoms && cacheToDoms - {p} == old(cacheToDoms) - {p}
        invariant cacheToDoms[p] == old(cacheToDoms[p]) + Pairs(caches - todo, {e})
        decreases todo
      {
        var c :| c in todo;
        AddValue(p, c, e);
        PairsStep(caches - todo, c, e);
        todo := todo - {c};
      }
      assert caches - todo == caches;
    }

    /**
     * What `postProcessPage(p)` does, from the state before it to the state after it, where
     * `links` is the page's relation before the call.
     */
    twostate predicate PostProcessEffect(p: int, links: set<Link>)
      reads this, (set l | l in links :: l.1)`highlightColor, (set l | l in links :: l.1)`rgbColor
      reads CachesOf(links)`color
    {
      cacheToDoms == old(cacheToDoms)[p := links] &&
      hoverHooks == old(hoverHooks) + HooksFor(links) &&
      postProcessed == old(postProcessed) + [p] &&
      forall l | l in links ::
        StyledFrom(NamesFor(links, old(ColoursOf(links)), l.1), RgbsFor(links, old(ColoursOf(links)), l.1),
                   l.1.highlightColor, l.1.rgbColor, old(l.1.highlightColor), old(l.1.rgbColor))
    }

    /**
     * `postProcessPage`, its colour and co-highlight part: for each cache of the page's relation,
     * read its colour once, then give each of its elements the co-highlight listener and the
     * colour (a name, lower-cased, or RGB).
     */
    method PostProcessPage(p: int)
      requires Valid()
      modifies this`cacheToDoms, this`hoverHooks, this`postProcessed
      modifies ElemsIn(p)`highlightColor, ElemsIn(p)`rgbColor
      ensures Valid()
      ensures PostProcessEffect(p, old(Assoc(p)))
    {
      var links := GetCacheToDomsMap(p);
      PostProcessRelation(links, ColoursOf(links));
      postProcessed := postProcessed + [p];
    }

    /**
     * The two loops of `postProcessPage` over the page's relation `links`, whose caches have the
     * colours `colours`.
     */
    method PostProcessRelation(links: set<Link>, ghost colours: map<BacklinkCache, Option<Color>>)
      requires colours == ColoursOf(links)
      modifies this`hoverHooks, (set l | l in links :: l.1)`highlightColor, (set l | l in links :: l.1)`rgbColor
      ensures hoverHooks == old(hoverHooks) + HooksFor(links)
      ensures forall l | l in links ::
        StyledFrom(NamesFor(links, colours, l.1), RgbsFor(links, colours, l.1),
                   l.1.highlightColor, l.1.rgbColor, old(l.1.highlightColor), old(l.1.rgbColor))
    {
      ghost var elems := set l | l in links :: l.1;
      ghost var start := StyleSnapshot(elems);
      var todo := CachesOf(links);
      ghost var done: set<BacklinkCache> := {};
      while todo != {}
        invariant done !! todo && done + todo == CachesOf(links)
        invariant hoverHooks == old(hoverHooks) + HooksFor(Restrict(links, done))
        invariant StyledAll(links, done, colours, StyleSnapshot(elems), start)
        decreases todo
      {
        var c :| c in todo;
        var color := c.color;
        assert colours[c] == color;
        var els := ElementsOf(links, c);
        ghost var prev := StyleSnapshot(elems);
        PostProcessCache(c, color, els, elems);
        HooksForStep(links, done, c);
        StyledAllStep(links, done, colours, c, prev, StyleSnapshot(elems), start);
        done := done + {c};
        todo := todo - {c};
      }
      RestrictAll(links);
    }

    /**
     * The inner loop of `postProcessPage` for one cache `c` whose colour is `color`: every element
     * of `els` gets the co-highlight listener and the colour.
     */
    method PostProcessCache(c: BacklinkCache, color: Option<Color>, els: set<Element>, ghost elems: set<Element>)
      modifies this`hoverHooks, els`highlightColor, els`rgbColor
      ensures hoverHooks == old(hoverHooks) + HooksOf(c, els)
      ensures PaintedFrom(old(StyleSnapshot(elems)), StyleSnapshot(elems), els, color)
    {
      var todo := els;
      while todo != {}
        invariant todo <= els
        invariant hoverHooks == old(hoverHooks) + HooksOf(c, els - todo)
        invariant PaintedFrom(old(StyleSnapshot(elems)), StyleSnapshot(elems), els - todo, color)
        decreases todo
      {
        var e :| e in todo;
        HookClassAdderOnMouseOver(e, c);
        ApplyColor(e, color);
        todo := todo - {e};
      }
    }

    /** The colour part of `postProcessPage` for one element. */
    method ApplyColor(e: Element, color: Option<Color>)
      modifies e`highlightColor, e`rgbColor
      ensures Painted(color, old(e.highlightColor), old(e.rgbColor), e.highlightColor, e.rgbColor)
    {
      match color {
        case Some(Named(n)) => e.highlightColor := Some(AsciiLower(n));
        case Some(RgbColor(rgb)) => e.rgbColor := Some(rgb);
        case None =>
      }
    }

    /** `postProcessPageIfReady`: post-process exactly when all three flags are true. */
    method PostProcessPageIfReady(p: int)
      requires Valid()
      modifies this`cacheToDoms, this`pageStatus, this`hoverHooks, this`postProcessed
      modifies ElemsIn(p)`highlightColor, ElemsIn(p)`rgbColor
      ensures Valid()
      ensures Assoc(p) == old(Assoc(p)) && cacheToDoms - {p} == old(cacheToDoms) - {p}
      ensures pageStatus == old(pageStatus)[p := old(StatusOf(p))]
      ensures old(StatusOf(p)).Processed() ==> PostProcessEffect(p, old(Assoc(p)))
      ensures !old(StatusOf(p)).Processed() ==>
                cacheToDoms == old(cacheToDoms) && hoverHooks == old(hoverHooks) &&
                postProcessed == old(postProcessed) &&
                forall e :: e in old(ElemsIn(p)) ==>
                  e.highlightColor == old(e.highlightColor) && e.rgbColor == old(e.rgbColor)
    {
      var ready := IsPageProcessed(p);
      if ready {
        PostProcessPage(p);
      }
    }
  }

  /** One cache's colour applied to an element keeps it styled from the colours seen so far. */
  lemma StyleStep(names: set<string>, rgbs: set<Rgb>, name: Option<string>, rgb: Option<Rgb>,
                  name': Option<string>, rgb': Option<Rgb>, name0: Option<string>, rgb0: Option<Rgb>,
                  color: Option<Color>)
    requires StyledFrom(names, rgbs, name, rgb, name0, rgb0)
    requires Painted(color, name, rgb, name', rgb')
    ensures StyledFrom(
              names + (if color.Some? && color.value.Named? then {AsciiLower(color.value.name)} else {}),
              rgbs + (if color.Some? && color.value.RgbColor? then {color.value.rgb} else {}),
              name', rgb', name0, rgb0)
  {
  }

  lemma HooksForStep(links: set<Link>, caches: set<BacklinkCache>, c: BacklinkCache)
    ensures HooksFor(Restrict(links, caches + {c})) == HooksFor(Restrict(links, caches)) + HooksOf(c, ElementsOf(links, c))
  {
  }

  lemma RestrictAll(links: set<Link>)
    ensures Restrict(links, CachesOf(links)) == links
  {
  }

  /**
   * Reading the colour of one more cache `c` keeps element `x` styled from the colours of the
   * caches done so far, whether `x` is one of `c`'s elements (its attributes go from `name`, `rgb`
   * to `name'`, `rgb'`) or not (its attributes stay).
   */
  lemma StyledStep(links: set<Link>, done: set<BacklinkCache>, colours: map<BacklinkCache, Option<Color>>,
                   c: BacklinkCache, x: Element,
                   name: Option<string>, rgb: Option<Rgb>, name': Option<string>, rgb': Option<Rgb>,
                   name0: Option<string>, rgb0: Option<Rgb>)
    requires c !in done && c in colours
    requires StyledFrom(NamesFor(Restrict(links, done), colours, x), RgbsFor(Restrict(links, done), colours, x),
                        name, rgb, name0, rgb0)
    requires x in ElementsOf(links, c) ==> Painted(colours[c], name, rgb, name', rgb')
    requires x !in ElementsOf(links, c) ==> name' == name && rgb' == rgb
    ensures StyledFrom(NamesFor(Restrict(links, done + {c}), colours, x), RgbsFor(Restrict(links, done + {c}), colours, x),
                       name', rgb', name0, rgb0)
  {
    ColourStep(links, done, colours, c, x);
    StyleStep(NamesFor(Restrict(links, done), colours, x), RgbsFor(Restrict(links, done), colours, x),
              name, rgb, name', rgb', name0, rgb0, if x in ElementsOf(links, c) then colours[c] else None);
  }

  /** Colouring the elements of one more cache keeps every element styled. */
  lemma StyledAllStep(links: set<Link>, done: set<BacklinkCache>, colours: map<BacklinkCache, Option<Color>>,
                      c: BacklinkCache, prev: map<Element, Style>, now: map<Element, Style>, start: map<Element, Style>)
    requires c !in done && c in colours
    requires StyledAll(links, done, colours, prev, start)
    requires PaintedFrom(prev, now, ElementsOf(links, c), colours[c])
    ensures StyledAll(links, done + {c}, colours, now, start)
  {
    forall x | x in now && x in start
      ensures StyledFrom(NamesFor(Restrict(links, done + {c}), colours, x), RgbsFor(Restrict(links, done + {c}), colours, x),
                         now[x].0, now[x].1, start[x].0, start[x].1)
    {
      StyledStep(links, done, colours, c, x, prev[x].0, prev[x].1, now[x].0, now[x].1, start[x].0, start[x].1);
    }
  }

  /** Adding one more cache's pairs adds its colour to the colour sets of its own elements only. */
  lemma ColourStep(links: set<Link>, done: set<BacklinkCache>, colours: map<BacklinkCache, Option<Color>>,
                   c: BacklinkCache, x: Element)
    requires c !in done && c in colours
    ensures var color := colours[c];
            NamesFor(Restrict(links, done + {c}), colours, x) ==
            NamesFor(Restrict(links, done), colours, x) +
            (if x in ElementsOf(links, c) && color.Some? && color.value.Named? then {AsciiLower(color.value.name)} else {})
    ensures var color := colours[c];
            RgbsFor(Restrict(links, done + {c}), colours, x) ==
            RgbsFor(Restrict(links, done), colours, x) +
            (if x in ElementsOf(links, c) && color.Some? && color.value.RgbColor? then {color.value.rgb} else {})
  {
  }
}
