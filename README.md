# Backlink overlays and command helpers of a PDF viewer plugin, in Dafny

This project models two parts of the PDF++ Obsidian plugin.

**The backlink overlay engine** (`src/backlink-visualizer.ts`) has two parts.

`BacklinkDomManager` (module `BacklinkDom`, class `DomManager`) keeps two things per page:
- A readiness record with three flags: page ready, text layer ready, annotation layer ready.
- A relation between backlink caches and the page elements drawn for them. It is a set of (cache, element) pairs, so one element can belong to several caches.

It supports these operations:
- merge-updating the flags;
- clearing a page, which detaches the overlay elements but keeps native annotation containers attached;
- post-processing a page once all three flags are set, which registers hover listeners and colours every element from its caches' colours;
- the co-highlight listeners themselves.

`PDFViewerBacklinkVisualizer` (module `BacklinkVisualizer`, class `Visualizer`) has three rendering-stage handlers:
- Each handler is guarded by the readiness flags.
- Its `process*` methods place rectangles and icons for each destination group of the page's backlink index.
- Everything placed is recorded under every cache of the group.
- `showIcon` computes the icon square.

Elements and caches are classes, because the plugin updates them in place: `remove`, `addClass`, `dataset`, `setColor`. The backend's `placeRectInPage` allocates a fresh element inside the page's highlight layer.

Three collaborators are parameters: the id decoders, the selection-rectangle merger (`Codecs`) and the page index (`PageIndex`). Three assumptions about them and the backend are not checked against their code, and "## Left out" names each. Each merged rectangle is assumed to carry a usable first text index. A colour written with `setColor` is assumed to read back unchanged through `getColor`. An element fresh from `placeRectInPage` is assumed to carry no classes yet.

**The command helpers** (`src/lib/commands.ts`, module `Commands`) cover:
- the command table, as the constructor fills it;
- `getCommand`;
- command-name prefix stripping;
- the non-copy command list;
- the copy-link and canvas-card fallback chains;
- the page arithmetic of `insertPage`;
- the subpath and destination array built by `copyLinkToPageView`;
- the text built by `copyOutline`.

The table is a JavaScript object, so it is modelled as a map plus the order in which keys were first assigned. That is the order `Object.keys` and `Object.values` give for non-numeric keys.

JavaScript numbers are modelled as exact `real`s. Formatting a number into a string (`${n}`) is a parameter `show`.

Shared pieces live in `Wrappers` (`Option`, with `GetOr` for `??`), `Strings` (`startsWith`, `repeat`, ASCII lower-casing) and `Geometry` (rectangles and the icon square).

## Model

| member | source | states |
|---|---|---|
| Geometry.IconSize | src/backlink-visualizer.ts:433 | the icon side is pageWidth × backlinkIconSize / 2000: the minimum of the width with itself is the width, and the page height plays no part |
| Geometry.IconRect | src/backlink-visualizer.ts:434-436 | the icon is a square of the icon size whose top edge is at y; on the right side its left edge is at x, on the left side its right edge is at x |
| Geometry.IconSidesDifferByShift | src/backlink-visualizer.ts:434-436 | the left-side icon is the right-side icon anchored one icon size further left |
| Geometry.IconRectWellFormed | src/backlink-visualizer.ts:434-436 | for a non-negative size the icon is a well-formed rectangle with the anchor on its top edge |
| Geometry.IconSizeMonotone | src/backlink-visualizer.ts:433 | for a non-negative setting, a wider page never gets a smaller icon |
| Strings.AsciiLower | src/backlink-visualizer.ts:112 | `toLowerCase` on ASCII text: the length is kept, each ASCII capital becomes its small letter, and every other character is kept |
| Strings.AsciiLowerIdempotent | src/backlink-visualizer.ts:112 | lower-casing twice is lower-casing once |
| Strings.Repeat | src/lib/commands.ts:678-680 | `s.repeat(n)` has n·\|s\| characters and is s followed by `s.repeat(n-1)` |
| Wrappers.Option.GetOr | src/lib/commands.ts:289-290 | `x ?? d` is the value when there is one and the default otherwise |
| BacklinkDom.BacklinkCache.SetColor | src/backlink-visualizer.ts:376 | the cache's colour becomes the given colour |
| BacklinkDom.Element.Remove | src/backlink-visualizer.ts:63 | the element is detached from the page |
| BacklinkDom.Element.AddClasses | src/backlink-visualizer.ts:355 | the element's classes gain exactly the given ones |
| BacklinkDom.AddClassToAll | src/backlink-visualizer.ts:194-196 | every target gains the class, and nothing else changes |
| BacklinkDom.RemoveClassFromAll | src/backlink-visualizer.ts:199-201 | every target loses the class, and nothing else changes |
| BacklinkDom.Merge | src/backlink-visualizer.ts:89-92 | `Object.assign`: each flag present in the update takes its value, and each absent flag keeps the old one |
| BacklinkDom.MergeCompletes | src/backlink-visualizer.ts:84-87 | setting one flag makes the page processed if and only if the other two flags were already set |
| BacklinkDom.DomManager.constructor | src/backlink-visualizer.ts:37-43 | the manager starts with no relations, no readiness records and no listeners |
| BacklinkDom.DomManager.GetCacheToDomsMap | src/backlink-visualizer.ts:49-57 | returns the page's relation, creating an empty one on first use; other pages and all elements are unchanged |
| BacklinkDom.DomManager.GetStatus | src/backlink-visualizer.ts:75-82 | returns the page's record; the first call creates and stores an all-false record |
| BacklinkDom.DomManager.IsPageProcessed | src/backlink-visualizer.ts:84-87 | true if and only if all three flags of the page are set; the record is created if missing |
| BacklinkDom.DomManager.UpdateStatus | src/backlink-visualizer.ts:89-92 | the page's record becomes the merge of its old record (all false if new) with the update; other pages are unchanged |
| BacklinkDom.DomManager.ClearDomInPage | src/backlink-visualizer.ts:59-67 | every element of the page's relation inside the highlight layer is detached and every other one stays attached; the relation is dropped; the three flags become false |
| BacklinkDom.DomManager.Clear | src/backlink-visualizer.ts:69-73 | every page with a relation is cleared: all relations are dropped, those pages' records become all false, and elements are detached if and only if they lie in the highlight layer |
| BacklinkDom.DomManager.HookClassAdderOnMouseOver | src/backlink-visualizer.ts:187-193 | registers a co-highlight listener on the element only when the cache has a page number |
| BacklinkDom.DomManager.HoverListener | src/backlink-visualizer.ts:193-205 | on mouse-over, every element of the same cache on the cache's page gains `is-hovered`, and one mouse-out listener becomes pending |
| BacklinkDom.DomManager.MouseOutListener | src/backlink-visualizer.ts:198-203 | on mouse-out, every element of the same cache loses `is-hovered`, and the listener unregisters itself |
| BacklinkDom.DomManager.AddValue | src/backlink-visualizer.ts:331-333 | the page's relation gains exactly the one pair; other pages are unchanged |
| BacklinkDom.DomManager.AddValueForAll | src/backlink-visualizer.ts:389-391 | the page's relation gains the element under every cache of the set and nothing else |
| BacklinkDom.DomManager.PostProcessPage | src/backlink-visualizer.ts:100-123 | registers a listener for every pair of the page's relation with a paged cache, and appends the page to the post-processed pages; each element ends up with the lower-cased name of one of its caches' named colours and the RGB of one of its caches' RGB colours, and keeps its old value for a kind none of its caches has |
| BacklinkDom.DomManager.PostProcessRelation | src/backlink-visualizer.ts:102-122 | the outer loop over caches, proved against the same colouring relation: each cache's colour is read once, before its elements are painted |
| BacklinkDom.DomManager.PostProcessCache | src/backlink-visualizer.ts:105-121 | the inner loop: every element of the cache is hooked and painted with the cache's colour, and all other elements keep their colours |
| BacklinkDom.DomManager.ApplyColor | src/backlink-visualizer.ts:111-120 | a named colour sets the lower-cased name, an RGB colour sets the RGB properties, and no colour changes nothing |
| BacklinkDom.DomManager.PostProcessPageIfReady | src/backlink-visualizer.ts:94-98 | post-processes exactly when the page is processed; otherwise relations, listeners and colours are unchanged; the record is created if missing |
| BacklinkVisualizer.ShouldVisualizeBacklinks | src/backlink-visualizer.ts:243-252 | highlighting must be on; a stand-alone viewer then always qualifies, and any other viewer qualifies if and only if it is a canvas, hover popover or embed whose own setting is on |
| BacklinkVisualizer.PlaceRectInPage | src/backlink-visualizer.ts:415 | the backend gives a fresh, attached element in the page's highlight layer covering the rectangle |
| BacklinkVisualizer.Visualizer.constructor | src/backlink-visualizer.ts:215-219 | the visualizer owns a fresh, empty manager |
| BacklinkVisualizer.Visualizer.ShowIcon | src/backlink-visualizer.ts:431-442 | a fresh icon element whose rectangle is the icon square at the anchor, with class `pdf-plus-backlink-icon` |
| BacklinkVisualizer.Visualizer.OnPageReady | src/backlink-visualizer.ts:257-274 | the page is cleared: overlays are detached and native containers stay attached. For each XYZ, FitBH and FitR group, the elements its `process*` method places (position, classes, and whether the icon setting lets the icon appear) are fresh, and no element serves two groups, of the same kind or not. The page's relation becomes exactly those elements under every cache of their group, so nothing from an earlier run stays. The record is exactly (true, false, false), post-processing does not run, and other pages are unchanged |
| BacklinkVisualizer.Visualizer.PlaceOffsets | src/backlink-visualizer.ts:262-270 | the three loops place, for each XYZ, FitBH and FitR group, exactly what its `process*` method places, and no element serves two groups, of the same kind or not. The relation gains exactly those elements under every cache of their group, and other pages are unchanged |
| BacklinkVisualizer.Visualizer.PageArrived | src/backlink-visualizer.ts:262-273 | on a cleared page, the offset elements are placed and recorded group by group, each new and serving one group only. The page-ready flag is set, and post-processing does not run because the other two flags are false |
| BacklinkVisualizer.Visualizer.OnTextLayerReady | src/backlink-visualizer.ts:276-288 | unless the page is page-ready and not text-layer-ready, nothing changes but the record's creation. Otherwise: each selection group's merged rectangles and optional icon are placed as `processSelection` places them, and the relation gains exactly those under every cache of their group. Only the text flag is set. The page is post-processed (listeners for its whole relation) if and only if its annotation flag was already set |
| BacklinkVisualizer.Visualizer.TextLayerArrived | src/backlink-visualizer.ts:282-287 | once the guard has passed: the selection groups are placed and recorded, the text flag is set, and the page is post-processed if and only if it was page-ready and annotation-layer-ready |
| BacklinkVisualizer.Visualizer.OnAnnotationLayerReady | src/backlink-visualizer.ts:290-302 | the same guard, on the annotation flag. When the guard fails, nothing changes but the record's creation, and caches and containers are unchanged too. When it passes: each found annotation's container, optional icon and bounding rectangle are placed and recorded under every cache of their group. Exactly the containers of found annotations gain the backlink classes. Each cache ends with the colour of the last group naming it whose annotation was found, or keeps its own if there is none. Only the annotation flag is set. Post-processing happens if and only if the text flag was already set |
| BacklinkVisualizer.Visualizer.AnnotationLayerArrived | src/backlink-visualizer.ts:296-301 | once the guard has passed: the annotation groups are placed, marked, recorded and coloured, as `OnAnnotationLayerReady` states. The annotation flag is set, and the page is post-processed if and only if it was page-ready and text-layer-ready |
| BacklinkVisualizer.Visualizer.FinishStage | src/backlink-visualizer.ts:272-273 | `updateStatus` then `postProcessPageIfReady`. The record becomes the merge of the old record and the update. The relation and every placed element are kept. The page is post-processed if and only if the merged record is processed |
| BacklinkVisualizer.Visualizer.ProcessXYZs | src/backlink-visualizer.ts:262-264 | for each XYZ group, in order, exactly what `processXYZ` places; no element is placed for two groups. The relation gains exactly those elements under every cache of their group |
| BacklinkVisualizer.Visualizer.ProcessFitBHs | src/backlink-visualizer.ts:265-267 | as for `ProcessXYZs`, over the FitBH groups and `processFitBH`; none of the elements passed as already placed is reused |
| BacklinkVisualizer.Visualizer.ProcessFitRs | src/backlink-visualizer.ts:268-270 | as for `ProcessXYZs`, over the FitR groups and `processFitR`; none of the elements passed as already placed is reused |
| BacklinkVisualizer.Visualizer.ProcessSelections | src/backlink-visualizer.ts:282-284 | as for `ProcessXYZs`, over the selection groups and `processSelection` |
| BacklinkVisualizer.Visualizer.ProcessGroupAfter | src/backlink-visualizer.ts:262-270 | one turn of those loops: the group's placement is appended and shares no element with earlier groups or the elements passed as already placed, and the relation gains exactly its elements under the group's caches |
| BacklinkVisualizer.Visualizer.ProcessGroup | src/backlink-visualizer.ts:262-270 | the `process*` method of the group's kind: what it places is new, so it shares no element with anything placed before |
| BacklinkVisualizer.Visualizer.ProcessAnnotations | src/backlink-visualizer.ts:296-298 | for each annotation group, exactly what `processAnnotation` places, recorded under every cache of the group. Exactly the containers of found annotations gain the backlink classes. Each cache takes the colour of the last group naming it whose annotation was found |
| BacklinkVisualizer.Visualizer.ProcessAnnotationAfter | src/backlink-visualizer.ts:296-298 | one turn of that loop: the placements, the relation, the marked containers and the cache colours each advance by one group |
| BacklinkVisualizer.Visualizer.ProcessXYZ | src/backlink-visualizer.ts:380-393 | an icon on the left of the decoded (left, top) is placed if and only if offset icons are on; the relation gains exactly that icon under every cache of the group |
| BacklinkVisualizer.Visualizer.ProcessFitBH | src/backlink-visualizer.ts:395-408 | an icon at x = 0 and the decoded top is placed if and only if offset icons are on; the relation gains exactly that icon under every cache |
| BacklinkVisualizer.Visualizer.ProcessFitR | src/backlink-visualizer.ts:410-429 | a rectangle over the decoded rectangle is always placed, and an icon at its top-right corner if and only if rectangle icons are on; the relation gains exactly these under every cache |
| BacklinkVisualizer.Visualizer.ProcessSelection | src/backlink-visualizer.ts:305-345 | no text layer, or an empty one, places nothing (but creates the page's relation). Otherwise: one new rectangle per merged rectangle, all distinct, each carrying its text indices. An icon is placed at the last rectangle's (right, top) if and only if selection icons are on and a rectangle exists. The relation gains exactly these under every cache |
| BacklinkVisualizer.Visualizer.PlaceSelection | src/backlink-visualizer.ts:318-344 | the rectangles and then the optional icon, placed as `SelectionPlaced` says: one new element per merged rectangle, all distinct, and an icon that is none of them. All are recorded under every cache |
| BacklinkVisualizer.Visualizer.PlaceSelectionRects | src/backlink-visualizer.ts:318-334 | one fresh rectangle per merged rectangle, in order, pairwise distinct, each carrying its text indices and recorded under every cache |
| BacklinkVisualizer.Visualizer.ProcessAnnotation | src/backlink-visualizer.ts:347-378 | a missing annotation layer or a missing annotation changes nothing. Otherwise: the container gets the backlink classes, and no other container changes. The optional icon and bounding rectangle are placed per their settings. Container, icon and rectangle are recorded under every cache. Every cache takes the annotation's RGB colour |
| BacklinkVisualizer.Visualizer.MarkAnnotation | src/backlink-visualizer.ts:355-377 | the found-annotation part of `processAnnotation`, with the same effects |
| BacklinkVisualizer.Visualizer.RecordAnnotation | src/backlink-visualizer.ts:369-377 | the loop over caches: the relation gains exactly container, icon and rectangle under every cache, and every cache's colour is the annotation's RGB |
| BacklinkVisualizer.Visualizer.RecordForCache | src/backlink-visualizer.ts:371-373 | one cache gains exactly the container and whichever of icon and rectangle exist |
| Commands.BuildCommands | src/lib/commands.ts:162-165 | the constructor loop computes the fold of assignments over the array; the result is well formed and has a key for every command |
| Commands.Build | src/lib/commands.ts:162-165 | assigning commands one by one keeps the keys distinct and in step with the map |
| Commands.AssignWellFormed | src/lib/commands.ts:164 | one assignment keeps the record well formed |
| Commands.BuildKeys | src/lib/commands.ts:162-165 | the keys are exactly the ids of the commands |
| Commands.BuildLookup | src/lib/commands.ts:162-165 | when ids are distinct, `commands[c.id] == c` for every command of the array |
| Commands.BuildOrder | src/lib/commands.ts:162-165 | when ids are distinct, the key order is the array's order |
| Commands.CommandIdsDistinct | src/lib/commands.ts:26-160 | the 31 ids of the plugin's own command array are pairwise distinct |
| Commands.CommandTableLookup | src/lib/commands.ts:162-165 | in the plugin's own table, `commands[c.id]` is c for every command of the array |
| Commands.CommandTableOrder | src/lib/commands.ts:162-165 | the keys of the plugin's own table come in the array's order |
| Commands.CommandTableNonCopyNames | src/lib/commands.ts:195-199 | for the plugin's own table, `listNonCopyCommandNames` gives the stripped names of exactly the commands whose ids are not one of the three copy ids, in array order |
| Commands.GetCommand | src/lib/commands.ts:172-177 | an id starting with `"<manifest id>:"` is looked up without that prefix; any other id is looked up unchanged |
| Commands.GetCommandQualified | src/lib/commands.ts:172-177 | a qualified id finds the command of its unqualified part, and only one prefix is removed |
| Commands.StripCommandNamePrefix | src/lib/commands.ts:188-193 | a name starting with `"<manifest name>: "` loses exactly that prefix; any other name is unchanged |
| Commands.StripPrefixed | src/lib/commands.ts:188-193 | prefixing a name and stripping it gives the name back |
| Commands.NonCopyIds | src/lib/commands.ts:195-197 | the filter keeps exactly the keys not in `copyCommandIds` |
| Commands.NonCopyIdsAppend | src/lib/commands.ts:195-197 | the filter distributes over concatenation, so it keeps the keys' order |
| Commands.NamesOf | src/lib/commands.ts:184-186 | position by position, the stripped names of the commands under the given keys |
| Commands.ListCommandNames | src/lib/commands.ts:183-186 | the stripped names of all commands, in key order |
| Commands.ListNonCopyCommandNames | src/lib/commands.ts:195-199 | the one-pass filter-and-map equals the stripped names of the filtered keys |
| Commands.NonCopyNames | src/lib/commands.ts:196-198 | the recursive filter-and-map agrees with filtering first and mapping after |
| Commands.NonCopyCommands | src/lib/commands.ts:20-24 | exactly the commands of the array whose ids are not copy ids |
| Commands.NonCopyNamesInTableOrder | src/lib/commands.ts:195-199 | for a table with distinct ids, the list is the stripped names of exactly the non-copy commands, in table order |
| Commands.CopyLinkChain | src/lib/commands.ts:201-208 | the attempts are, in this order, a prefix of: write-highlight-and-copy, copy link to annotation, copy link to selection. The result is true if and only if some attempt succeeds. The annotation attempt runs if and only if writing fails, and the selection attempt if and only if both earlier ones fail |
| Commands.CopyLinkStopsAtFirstSuccess | src/lib/commands.ts:201-208 | every attempt before the last failed, and the command answers what its last attempt answered |
| Commands.CanvasCardChain | src/lib/commands.ts:210-215 | the attempts are, in this order, a prefix of: card from annotation, card from selection. The selection attempt runs if and only if the annotation attempt fails, and the result is true if and only if some attempt succeeds |
| Commands.CanvasCardStopsAtFirstSuccess | src/lib/commands.ts:210-215 | every attempt before the last failed, and the command answers what its last attempt answered |
| Commands.InsertPage | src/lib/commands.ts:456-469 | the returned boolean is false if and only if the composer is off or no PDF file is open. When it is true, the insertion made when not only checking puts the new page at `basePage` before, or `basePage + 1` after, sized like `basePage` |
| Commands.InsertAfterIsBeforeNext | src/lib/commands.ts:463-464 | inserting after page n targets the same page as inserting before page n + 1 |
| Commands.CopyLinkToPageViewCommand | src/lib/commands.ts:280-308 | fails if and only if there is no view with a file or left/top are not numbers; copies only when not checking; the destination's page index is page − 1; FitBH with top if and only if the scale is `page-width`, otherwise XYZ with left, top and zoom (0 if absent); the subpath is the one its destination denotes |
| Commands.Indent | src/lib/commands.ts:661 | a tab, or `tabSize` spaces; a negative size throws |
| Commands.CopyOutlineText | src/lib/commands.ts:657-684 | the accumulation loop computes the outline text: nothing if a repeat throws, otherwise the lines of the non-root items in walk order |
| Commands.OutlineTextStaysFailed | src/lib/commands.ts:657-684 | once a line throws, nothing is copied |
| Commands.OutlineRootSkipped | src/lib/commands.ts:665 | the root item adds no line |
| Commands.OutlineTextAppend | src/lib/commands.ts:663-684 | the text of two successive parts of the walk is the concatenation of their texts |
| Commands.HeadingLineLevel | src/lib/commands.ts:680 | a heading line is exactly depth + minHeadingLevel − 1 hashes followed by a space, the item's text and a newline |
| Commands.ListLineDepth | src/lib/commands.ts:678 | with tab indentation, a list line is exactly depth − 1 tabs followed by `- `, the item's text and a newline |

## Left out

- Event wiring is not modelled: opening links on click, the backlink pane's hover sync, the context menu and the `mouseover`/`mouseout` registration with the browser. These are browser and workspace calls. The co-highlight listeners are modelled as registered hooks (`hoverHooks`) whose effect is `HoverListener` and `MouseOutListener`.
- `setIcon`, the SVG stroke attribute and the selection rectangle's `fontSize` style are not modelled. They are rendering calls. The font size reads the text div at the first index of the merged rectangle.
- The id decoders, `computeMergedHighlightRects`, `PDFBacklinkIndex` and the internals of `BidirectionalMultiValuedMap` are not part of this model. They are parameters, or a set of pairs.
- The relation's iteration order is unknown. An element linked to several caches of different colours ends up with the colour of one of them, and the model does not say which.
- `BacklinkDom.DomManager.PostProcessPage`: the registration of the opener, backlink-pane and context-menu handlers on each element is not modelled. Only the co-highlight hook and the colours are.
- `BacklinkVisualizer.Visualizer.OnTextLayerReady`: the colours set by post-processing are stated by `PostProcessPage`, not repeated at handler level.
- `BacklinkVisualizer.Visualizer.OnAnnotationLayerReady`: the colours set by post-processing are stated by `PostProcessPage`, not repeated at handler level.
- Re-running `visualize` on an index update and `shouldVisualizeBacklinks` gating `onload` are not modelled. This is component lifecycle.
- Element positions, CSS and the DOM tree are not modelled. Only the highlight-layer bit and the attached bit are.
- JavaScript numbers are modelled as exact reals, with no rounding. Number-to-string formatting is the parameter `show`.
- What each command does in the workspace is not modelled: clipboard, notices, modals, file creation, the PDF composer, templates, and viewer or sidebar toggles. The table records which handler each command binds.
- `Commands.CopyOutlineText`: the guards of `copyOutline` are inputs, not modelled, because they query the workspace. The guards are a missing file and a missing outline. So are the async outline loading and the evaluation of each item's link text through the copy format: each item's evaluated text is an input.
- `Commands.CopyLinkToPageViewCommand`: the link text is built by `generateMarkdownLink` with the page alias, is not part of this model, and is not modelled. Only the subpath and the destination array are.
- Strings.AsciiLower: only ASCII capitals are lowered. JavaScript's `toLowerCase` applies full Unicode case mapping: it also lowers letters such as 'Ä', and it can lengthen a string ('İ' becomes two code units). A colour name with such letters gets a different `data-highlight-color` in the plugin than in the model.
- Commands.GetCommand: `this.commands` is a plain object, so looking up a key it does not own walks the prototype chain. `getCommand("constructor")` and `getCommand("<manifest id>:toString")` return members of `Object.prototype` in the plugin. The model returns no command for them.
- BacklinkVisualizer.Visualizer.ProcessSelection: every merged rectangle is assumed to have a first text index within the text layer. In the plugin, an empty or out-of-range `indices` makes reading `textDivs[indices[0]].style.fontSize` throw. That happens after the rectangle is placed and before it is recorded, and the handler then stops before `updateStatus`, so the text flag stays false. The model records the rectangle and sets the flag.
- BacklinkDom.DomManager.PostProcessCache: a colour written with `setColor({ rgb })` is assumed to read back through `getColor` as the same RGB colour. The backlink cache class is not part of this model.
- BacklinkVisualizer.Visualizer.ProcessAnnotation: the colour it gives each cache with `setColor({ rgb })` is assumed to read back through `getColor` as the same RGB colour when the page is post-processed. The backlink cache class is not part of this model.
- BacklinkDom.DomManager.HookClassAdderOnMouseOver: the registered listeners are a set. If an element is post-processed twice for the same cache and page, the plugin adds a second pair of listeners, and the model keeps one. An annotation container that survives a page clear is such an element.
- BacklinkVisualizer.PlaceRectInPage: the backend's `placeRectInPage` is not part of this model. The new element is assumed to carry no classes, so the class sets stated for placed elements are exactly those the plugin adds.
