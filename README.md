# live-line navigation core, modelled in Dafny

live-line is a Unity indoor-navigation prototype. It takes a BIM model loaded
into the scene and finds floors, obstacles and doors by their category
names. It bakes a NavMesh, computes a path to one of several destinations
(not always the nearest, see below), and turns that path into spoken-style instructions ("Go
straight for 12 meters", "Turn left", "Destination ahead").

This project models that core and proves properties of the model.

The instruction engine:

- `InstructionNode` (`instruction_node.dfy`) holds one instruction node and
  its live text.
- `InstructionRules` (`instruction_rules.dfy`) holds the hint table, the
  classifier and the merge rule. The classifier works on exact reals;
  `Vector3.Distance` and `Vector3.Angle` are left uninterpreted in a
  `Metric`.
- `InstructionPlan` (`instruction_plan.dfy`) holds the backward reduction
  over the path as pure functions, plus the two indexer selections.
- `NavigationInstructionsEngine` (`navigation_instructions.dfy`) holds the
  `NavigationInstructions` class. It has a mutable stack of
  `NavigationInstruction` nodes, and `Calculate` is proved to build exactly
  `Build(path, metric)`.

Around the engine:

- the transition-window rule (`constants.dfy`);
- the polyline helpers (`line_renderer_extensions.dfy`);
- the scene tree and the two category searches (`scene.dfy`,
  `sample_site.dfy`, `sample_navigation_site.dfy`);
- the two site-analysis state machines (`navigation_site.dfy`,
  `navigation_site_model.dfy`);
- the path finder's guards and destination choice (`path_finder.dfy`);
- the plural-ending helper (`collection_extensions.dfy`,
  `string_extensions.dfy`).

The code's quirks are modelled as written and proved as such:

- Point 1 of a path is never classified.
- The running distance counts the last segment twice and never adds the
  first two.
- The distance indexer throws at or below the destination's distance.
- The position remainder can be negative.
- The "Pass {1} doors" hint never gets a number.
- `PathFinder.Prepare` compares every destination with the first one only.
  So it picks the last destination that is strictly closer than the first,
  not the closest. The component's tooltip promises the closest; the model
  follows the code.
- The stairs test compares the angle of the outgoing span to the vertical
  with 26.565 degrees, which is a 2:1 rise over run. It therefore excludes
  only spans steeper than 2:1, and a nearly level span that rises more than
  0.47 m is upstairs. The comment on `MinStairsAngle` in Constants.cs
  describes a 1:2 slope as the minimum instead; the model follows the code.
- Both category searches walk into inactive children. What they collect
  below a match is what `GetComponentsInChildren(includeInactive: false)`
  lists, and that listing is empty under an inactive ancestor. The searches
  therefore carry a flag saying whether all ancestors are active.

## Model

| member | source | states |
|---|---|---|
| `Constants.ActualTransitionDistance` | Assets/Scripts/Constants.cs:70-73 | The window never exceeds the transition distance (2). For a non-negative span it lies between 0 and the span. Past 2 it is exactly 2. |
| `Constants.ActualTransitionDistanceMonotone` | Assets/Scripts/Constants.cs:70-73 | Over non-negative spans the window never shrinks as the span grows. |
| `Constants.ActualTransitionDistanceJump` | Assets/Scripts/Constants.cs:70-73 | At span 2 the window is 1. Just past 2 it jumps to 2. |
| `Constants.ThresholdsOrdered` | Assets/Scripts/Constants.cs:34-65 | 0 < turn angle < backturn angle <= 180. The transition distance is below the detail span. The stair elevation is positive. The ratio lies in (0, 1). |
| `InstructionNode.NavigationInstruction.constructor` | Assets/Scripts/Models/NavigationInstruction.cs:7-14 | Text, remainder, span and point are stored unchanged. `canUpdate` holds exactly when the text contains "{0}". |
| `InstructionNode.NavigationInstruction.UpdatedTextAt` | Assets/Scripts/Models/NavigationInstruction.cs:38-45 | A text without a placeholder comes back as it is. Otherwise the number is the distance to the anchor minus the span's transition window. |
| `InstructionNode.NavigationInstruction.UpdatedText` | Assets/Scripts/Models/NavigationInstruction.cs:47-55 | A text without a placeholder comes back as it is. Otherwise the number is span - (distanceLeft - d). Without an argument that number is the whole span. |
| `InstructionNode.NavigationInstruction.Extend` | Assets/Scripts/Models/NavigationInstruction.cs:57-63 | The spans add up. Text and anchor come from the absorbed node, and `canUpdate` is recomputed from its text. Distance left and notes stay. |
| `InstructionNode.CountdownByDistance` | Assets/Scripts/Models/NavigationInstruction.cs:52-54 | The countdown shows the whole span where the instruction appears. It falls one for one as the traveller advances and is zero at the span's end. |
| `InstructionNode.CountdownByPosition` | Assets/Scripts/Models/NavigationInstruction.cs:43-44 | The positional remainder is at least distance - 2. It is negative at the anchor itself: nothing bounds it below. |
| `InstructionRules.DecideStraightText` | Assets/Scripts/Models/NavigationInstructions.cs:31 | The text starts with "Go straight". It is the "for {0} meters" variant exactly when the span exceeds 3. |
| `InstructionRules.DecideDestinationText` | Assets/Scripts/Models/NavigationInstructions.cs:32 | The text starts with "Destinatio". It is the "in {0} meters" variant exactly when the span exceeds 3. |
| `InstructionRules.InstructionFor` | Assets/Scripts/Models/NavigationInstructions.cs:107-165 | The node keeps the given distance left and is anchored at the current point. Its span is the distance to the previous point at the destination, and to the next point elsewhere. |
| `InstructionRules.ClassifyRange` | Assets/Scripts/Models/NavigationInstructions.cs:123-164 | An interior point always gets a straight, turn, backturn or stairs hint, never a destination or door hint. |
| `InstructionRules.ClassifyMirror` | Assets/Scripts/Models/NavigationInstructions.cs:143-162 | Negating the cross product's y swaps left and right and changes nothing else. |
| `InstructionRules.ClassifyFlat` | Assets/Scripts/Models/NavigationInstructions.cs:124-164 | When the angle to the vertical is at most 26.565 degrees, the elevation plays no part: the result equals that of a level span. Above 144 degrees it is a backturn and above 27 a turn, the side given by the sign of cross.y. Otherwise, and when cross.y is 0, it is straight. |
| `InstructionRules.ClassifyStairs` | Assets/Scripts/Models/NavigationInstructions.cs:124-136 | When the angle to the vertical exceeds 26.565 degrees (the span is not steeper than 2:1), "downstairs" comes below -0.47 and "upstairs" above 0.47, whatever the turn. In between the turn rules decide. |
| `InstructionRules.ClassifyBoundaries` | Assets/Scripts/Models/NavigationInstructions.cs:124-162 | All comparisons are strict. Exactly 144 degrees is a turn, exactly 27 is straight, and neither an elevation of exactly -0.47 nor a vertical angle of exactly 26.565 is stairs. A span 88 degrees from the vertical rising 0.5 is upstairs. |
| `InstructionRules.PlaceholderHints` | Assets/Scripts/Models/NavigationInstructions.cs:11-29 | Only hints 1 and 13 contain "{0}". |
| `InstructionRules.DoorsHintHasNoPlaceholder` | Assets/Scripts/Models/NavigationInstructions.cs:23 | "Pass {1} doors stright" has a brace but no "{0}", so it never gets a number. |
| `InstructionRules.PlainHints` | Assets/Scripts/Models/NavigationInstructions.cs:11-29 | Every hint other than 1, 9 and 13 has no placeholder. |
| `InstructionRules.CandidateMerge` | Assets/Scripts/Models/NavigationInstructions.cs:183-221 | For a classifier text, merging is decided by the straight, short-straight and equal-text rules alone. |
| `InstructionRules.StraightRuns` | Assets/Scripts/Models/NavigationInstructions.cs:188-194 | Two straight texts always merge, whatever their spans. |
| `InstructionRules.TurnsAreKept` | Assets/Scripts/Models/NavigationInstructions.cs:183-221 | A turn, backturn or stairs candidate never merges into a different text. |
| `InstructionPlan.Last` | Assets/Scripts/Models/NavigationInstructions.cs:72 | The loop's lowest handled index is 2 for four or more points. It is never below 1. |
| `InstructionPlan.ReduceSize` | Assets/Scripts/Models/NavigationInstructions.cs:72-92 | Each loop step pushes at most one node, so the stack grows by at most the number of points handled. |
| `InstructionPlan.BuildSize` | Assets/Scripts/Models/NavigationInstructions.cs:63-97 | `Calculate` yields between 2 and max(2, n - 1) instructions. For two or three points it yields exactly origin and destination. |
| `InstructionPlan.BuildStartsAtOrigin` | Assets/Scripts/Models/NavigationInstructions.cs:93-96 | The first instruction is anchored at point 0. It has a straight text, spans the first segment and carries the final running distance. |
| `InstructionPlan.ReduceBottom` | Assets/Scripts/Models/NavigationInstructions.cs:67-71 | The bottom of the stack keeps the last segment's length as its distance left through every merge. |
| `InstructionPlan.BuildEndsAtDestination` | Assets/Scripts/Models/NavigationInstructions.cs:67-71 | The last instruction's distance left is the last segment's length. |
| `InstructionPlan.RunningLengthCountsLastTwice` | Assets/Scripts/Models/NavigationInstructions.cs:67-78 | The running distance is the sum of the segments from the current index plus the last segment a second time. |
| `InstructionPlan.OriginDistanceLeft` | Assets/Scripts/Models/NavigationInstructions.cs:63-97 | For four or more points the origin's distance left is the path length, minus the first two segments, plus the last segment. |
| `InstructionPlan.ReduceSpans` | Assets/Scripts/Models/NavigationInstructions.cs:72-92 | Merging and pushing keep the sum of the spans equal to the running distance. |
| `InstructionPlan.BuildSpans` | Assets/Scripts/Models/NavigationInstructions.cs:63-97 | The spans of the result add up to the first segment plus the final running distance. |
| `InstructionPlan.RunningLengthGrows` | Assets/Scripts/Models/NavigationInstructions.cs:72-77 | With non-negative distances, the running distance never shrinks as the loop goes back. |
| `InstructionPlan.StepOrdered` | Assets/Scripts/Models/NavigationInstructions.cs:82-91 | A merge or push with a candidate whose distance left is at least the top's keeps the stack ordered. |
| `InstructionPlan.ReduceOrdered` | Assets/Scripts/Models/NavigationInstructions.cs:72-92 | Distances left never increase from the top of the stack down. |
| `InstructionPlan.BuildOrdered` | Assets/Scripts/Models/NavigationInstructions.cs:63-97 | Distances left never increase in enumeration order, that is they are non-decreasing in push order. |
| `InstructionPlan.ReduceAnchors` | Assets/Scripts/Models/NavigationInstructions.cs:72-92 | Every node on the stack is anchored at a point the loop has already handled. |
| `InstructionPlan.BuildAnchors` | Assets/Scripts/Models/NavigationInstructions.cs:72-96 | The origin is anchored at point 0. Every other instruction is anchored at index `Last(p)` or later, which is 2 from four points on, so point 1 is never classified. |
| `InstructionPlan.CandidateText` | Assets/Scripts/Models/NavigationInstructions.cs:123-164 | Every interior candidate carries a classifier text. |
| `InstructionPlan.ReduceTexts` | Assets/Scripts/Models/NavigationInstructions.cs:72-92 | Every node above the bottom of the stack carries a classifier text. |
| `InstructionPlan.BuildTexts` | Assets/Scripts/Models/NavigationInstructions.cs:63-97 | The first instruction is straight. Only the last can carry a destination text. |
| `InstructionPlan.StepIgnoresDestinationRule` | Assets/Scripts/Models/NavigationInstructions.cs:203-210 | Inside the loop the "Destinatio" merge rule never decides anything. |
| `InstructionPlan.SelectByDistance` | Assets/Scripts/Models/NavigationInstructions.cs:242-252 | It selects the instruction with the smallest positive d - distanceLeft, the earliest one on ties. It selects none exactly when no distance left is below d. |
| `InstructionPlan.SelectByPosition` | Assets/Scripts/Models/NavigationInstructions.cs:259-268 | It selects the instruction whose anchor has the least squared distance, the earliest one on ties. It selects none only for an empty list. |
| `InstructionPlan.SelectByDistanceOnOrdered` | Assets/Scripts/Models/NavigationInstructions.cs:246-249 | On an ordered list it selects the first instruction whose distance left is below d. |
| `InstructionPlan.OrderedDistanceQueries` | Assets/Scripts/Models/NavigationInstructions.cs:242-252 | On an ordered list: beyond the first distance left the first instruction is selected. At or below the last one, none is. |
| `InstructionPlan.BuildDistanceQueries` | Assets/Scripts/Models/NavigationInstructions.cs:242-252 | Beyond the origin's distance left the origin is selected. At or below the last segment's length nothing is, so the indexer throws, at the destination included. |
| `NavigationInstructionsEngine.Merge` | Assets/Scripts/Models/NavigationInstructions.cs:183-221 | It answers true exactly when one of the four rules holds. Then the first node absorbs the candidate. Otherwise nothing changes, and the candidate is never modified. |
| `NavigationInstructionsEngine.NavigationInstructions.Create` | Assets/Scripts/Models/NavigationInstructions.cs:46-56 | A path of fewer than 2 points fails with InvalidOperation and nothing is created. Otherwise the path is stored with an empty stack. |
| `NavigationInstructionsEngine.NavigationInstructions.constructor` | Assets/Scripts/Models/NavigationInstructions.cs:53-55 | The path is stored, the stack is empty and no instruction is remembered. |
| `NavigationInstructionsEngine.NavigationInstructions.GetInstruction` | Assets/Scripts/Models/NavigationInstructions.cs:107-165 | It returns a new node whose value is the classifier's instruction for the point. |
| `NavigationInstructionsEngine.NavigationInstructions.Push` | Assets/Scripts/Models/NavigationInstructions.cs:89 | The node becomes the top of the stack and nothing else changes. |
| `NavigationInstructionsEngine.NavigationInstructions.MergeOrPush` | Assets/Scripts/Models/NavigationInstructions.cs:82-91 | The stack becomes `Step` of the old stack and the candidate. The remembered node stays the top. |
| `NavigationInstructionsEngine.NavigationInstructions.Visit` | Assets/Scripts/Models/NavigationInstructions.cs:74-91 | One iteration moves the running distance from `RunningLength(path, metric, i + 1)` to `RunningLength(path, metric, i)`, and the stack from `Reduce(path, metric, i + 1)` to `Reduce(path, metric, i)`. |
| `NavigationInstructionsEngine.NavigationInstructions.BeginAtDestination` | Assets/Scripts/Models/NavigationInstructions.cs:66-71 | The running distance is the last segment, and the destination instruction is pushed and remembered. |
| `NavigationInstructionsEngine.NavigationInstructions.EndAtOrigin` | Assets/Scripts/Models/NavigationInstructions.cs:93-96 | The origin instruction is pushed with the final running distance, never merged. |
| `NavigationInstructionsEngine.NavigationInstructions.Calculate` | Assets/Scripts/Models/NavigationInstructions.cs:63-97 | The stack gains exactly `Build(path, metric)` on top of its old contents. The running distance ends at `RunningLength(path, metric, Last(path))`. |
| `NavigationInstructionsEngine.NavigationInstructions.AtDistance` | Assets/Scripts/Models/NavigationInstructions.cs:242-252 | It returns the selected node rendered at d, and fails (throws) when no node qualifies. |
| `NavigationInstructionsEngine.NavigationInstructions.AtPosition` | Assets/Scripts/Models/NavigationInstructions.cs:259-268 | It returns the nearest-anchored node rendered at the position, and fails only on an empty stack. |
| `NavigationInstructionsEngine.NavigationInstructions.GetEnumerator` | Assets/Scripts/Models/NavigationInstructions.cs:270-273 | Enumeration yields the nodes in stack order, top first, and their values are `Values()`. |
| `NavigationInstructionsEngine.EnumerateRoute` | Assets/Scripts/Models/NavigationInstructions.cs:46-97 | Constructing, calculating and enumerating fails exactly for fewer than two points. Otherwise it yields `Build(path, metric)`: at least two instructions, the origin instruction first, anchored at point 0, and last the destination instruction, whose distance left is the last segment. |
| `LineRendererExtensions.GetTotalLength` | Assets/Scripts/Misc/LineRendererExtensions.cs:10-24 | The result is the sum of consecutive distances, 0 for fewer than two points, and non-negative. |
| `LineRendererExtensions.GetTotalSqrMagnitude` | Assets/Scripts/Misc/LineRendererExtensions.cs:32-46 | The result is the sum of squared segment lengths, 0 for fewer than two points, and non-negative. |
| `LineRendererExtensions.Clamp01` | Assets/Scripts/Misc/LineRendererExtensions.cs:87 | The clamped parameter lies in [0, 1]. |
| `LineRendererExtensions.ClosestParameter` | Assets/Scripts/Misc/LineRendererExtensions.cs:81-87 | The projection parameter lies in [0, 1]. |
| `LineRendererExtensions.GetClosestPointOnSegment` | Assets/Scripts/Misc/LineRendererExtensions.cs:79-90 | The result lies on the segment at the clamped parameter. It is `start` for a zero-length segment. |
| `LineRendererExtensions.ClosestPointOnSegmentIsClosest` | Assets/Scripts/Misc/LineRendererExtensions.cs:79-90 | No point of the segment is nearer to the position than the returned one. |
| `LineRendererExtensions.GetClosestPoint` | Assets/Scripts/Misc/LineRendererExtensions.cs:54-77 | An empty line fails, and one point returns that point. Otherwise it returns the closest point of the first nearest segment, or point 0 if no segment beats `float.MaxValue`. |
| `LineRendererExtensions.FirstNearestIsClosest` | Assets/Scripts/Misc/LineRendererExtensions.cs:62-74 | The chosen point is no farther from the position than any point of any segment of the line. |
| `Scene.WithMeshFilter` | Assets/Scripts/Models/NavigationSite.cs:118 | It keeps exactly the nodes that carry a mesh filter, and no more nodes than it is given. |
| `Scene.WithMeshFilterAppend` | Assets/Scripts/Models/NavigationSite.cs:118 | Filtering a concatenation concatenates the filtered parts, so the filter keeps the listing's order. |
| `Scene.ActiveNodesWithin` | Assets/Scripts/SampleSite.cs:52-53 | The active-node listing holds only active nodes of the subtree, and no more of them than the subtree has. |
| `Scene.ActiveRootFirst` | Assets/Scripts/SampleSite.cs:52-55 | An active node heads its own listing, so `Skip(1)` drops exactly that node. |
| `SiteSearch.FoundWithin` | Assets/Scripts/SampleSite.cs:38-66 | Every node found belongs to the subtree. It is active with only active ancestors, unless it is a matched leaf, which is taken whatever its flag and its ancestors' flags. |
| `SiteSearch.NothingNamedNothingFound` | Assets/Scripts/SampleSite.cs:38-66 | A subtree with no node of the categories yields nothing. |
| `SiteSearch.SampleSite.FindElementsOfCategory` | Assets/Scripts/SampleSite.cs:38-66 | A leaf yields itself when matched. A matched inner node yields its descendants that are active in the hierarchy, without itself. Any other node yields its children's results in order, the search going on below inactive children. |
| `SiteSearch.SampleSite.GetFloors` | Assets/Scripts/SampleSite.cs:12-15 | The search for Topography, Floors and Stairs from the site's root. Everything found is in the tree, and active in the hierarchy unless it is a matched leaf. |
| `SiteSearch.SampleSite.GetObstacles` | Assets/Scripts/SampleSite.cs:17-25 | Walls, then Furniture, then Structural Columns. Everything found is in the tree, and active in the hierarchy unless it is a matched leaf. |
| `NavigationSiteSearch.FoundWithin` | Assets/Scripts/Models/SampleNavigationSite.cs:43-61 | Everything found is an active node of the subtree with only active ancestors. The search never yields more nodes than the subtree has, because a node under a match is reached only through it. |
| `NavigationSiteSearch.HiddenSubtreeYieldsNothing` | Assets/Scripts/Models/SampleNavigationSite.cs:43-61 | Below an inactive ancestor nothing is found, whatever the names, although the search walks into that subtree. |
| `NavigationSiteSearch.NothingNamedNothingFound` | Assets/Scripts/Models/SampleNavigationSite.cs:55-60 | A subtree with no node of the categories, a non-matching leaf included, yields nothing. |
| `NavigationSiteSearch.MatchedParentDifference` | Assets/Scripts/Models/SampleNavigationSite.cs:46-52 | On a matched active inner node this draft yields the other draft's result with the node itself prepended. |
| `NavigationSiteSearch.DraftsOnActiveTrees` | Assets/Scripts/Models/SampleNavigationSite.cs:43-61 | On a fully active tree, everything the first draft finds is also found by this one. |
| `NavigationSiteSearch.SampleNavigationSite.FindElementsOfCategory` | Assets/Scripts/Models/SampleNavigationSite.cs:43-61 | A matched node yields the part of its subtree that is active in the hierarchy, itself first. Any other node yields its children's results in order, the search going on below inactive children. |
| `NavigationSiteSearch.SampleNavigationSite.GetFloors` | Assets/Scripts/Models/SampleNavigationSite.cs:12-15 | The search for Topography, Floors and Stairs. Everything found is in the tree and active, and nothing is found when an ancestor of the root is inactive. |
| `NavigationSiteSearch.SampleNavigationSite.GetObstacles` | Assets/Scripts/Models/SampleNavigationSite.cs:17-25 | Walls, then Furniture, then Structural Columns. Everything found is in the tree and active, and nothing is found when an ancestor of the root is inactive. |
| `NavigationSiteSearch.SampleNavigationSite.GetPassages` | Assets/Scripts/Models/SampleNavigationSite.cs:27-30 | The search for Doors. Everything found is in the tree and active, and nothing is found when an ancestor of the root is inactive. |
| `SiteAnalysis.Notifications` | Assets/Scripts/NavigationSite.cs:45-49 | Setting the flag notifies once exactly when the value is true and a listener is set. |
| `SiteAnalysis.NavigationSite.SetIsAnalysed` | Assets/Scripts/NavigationSite.cs:40-51 | It stores the value and adds that notification to the count. There is no change check. |
| `SiteAnalysis.NavigationSite.Analyse` | Assets/Scripts/NavigationSite.cs:56-62 | The flag ends true. Null collector results become empty lists. Listeners hear exactly once. |
| `SiteAnalysis.NoChangeCheck` | Assets/Scripts/NavigationSite.cs:43-50 | Setting true twice notifies twice. |
| `SiteAnalysis.ClearingIsSilent` | Assets/Scripts/NavigationSite.cs:43-50 | Setting false never notifies. |
| `SiteAnalysis.AnalyseTwice` | Assets/Scripts/NavigationSite.cs:56-62 | Two analyses with null collectors give empty lists, a set flag and two notifications. |
| `NavMeshSite.ObjectSourcesSound` | Assets/Scripts/Models/NavigationSite.cs:118-139 | A source exists exactly for each mesh filter with a renderer, tagged with its owner and the area. |
| `NavMeshSite.SourcesExactly` | Assets/Scripts/Models/NavigationSite.cs:116-165 | A source exists exactly for each collected object and each active mesh-filter node with a renderer below it. |
| `NavMeshSite.NavigationSite.Notifies` | Assets/Scripts/Models/NavigationSite.cs:88-92 | A notification needs a true value and unmuted listeners. |
| `NavMeshSite.NavigationSite.SetIsAnalysed` | Assets/Scripts/Models/NavigationSite.cs:83-94 | It stores the value and notifies only for true, unmuted and listened. Nothing else changes. |
| `NavMeshSite.NavigationSite.AddObjectSources` | Assets/Scripts/Models/NavigationSite.cs:118-139 | It appends the object's visible mesh sources in order, skipping meshes without a renderer. |
| `NavMeshSite.NavigationSite.AddSources` | Assets/Scripts/Models/NavigationSite.cs:116-140 | It appends the sources of every object, object by object. |
| `NavMeshSite.NavigationSite.Collect` | Assets/Scripts/Models/NavigationSite.cs:110-112 | Null results become empty lists. A throwing collector stops the assignments that follow it. |
| `NavMeshSite.NavigationSite.BuildSources` | Assets/Scripts/Models/NavigationSite.cs:114-165 | The sources are floor sources with area 0, then obstacle sources with area 1. |
| `NavMeshSite.NavigationSite.TryAnalyse` | Assets/Scripts/Models/NavigationSite.cs:108-200 | The flag is raised, and listeners notified, exactly when no collector threw and the bake succeeded. The lists and sources show how far it got. |
| `NavMeshSite.NavigationSite.Analyse` | Assets/Scripts/Models/NavigationSite.cs:99-205 | While busy nothing changes. Otherwise it ends not busy, with the flag true exactly when the analysis completed, and lists and sources as collected. The listener settings and the line renderer are untouched. |
| `NavMeshSite.NavigationSite.RemoveAllNavMeshData` | Assets/Scripts/Models/NavigationSite.cs:254-267 | The flag ends false with no notification, and the line renderer is gone. The lists, the sources, the busy flag and the listener settings are untouched. |
| `NavMeshSite.FailedBake` | Assets/Scripts/Models/NavigationSite.cs:193-204 | A failed bake leaves the site unanalysed and not busy, and nobody is notified. |
| `NavMeshSite.MutedListeners` | Assets/Scripts/Models/NavigationSite.cs:88-92 | Muted listeners are never notified, even by a complete analysis. |
| `PathFinding.LastCloserThanFirst` | Assets/Scripts/PathFinder.cs:116-126 | The selection is always an index among the destinations looked at. |
| `PathFinding.LastCloserCharacterised` | Assets/Scripts/PathFinder.cs:116-126 | It selects index 0 or a destination strictly closer than the first, and none after it is. It is 0 exactly when no later destination is strictly closer than the first. |
| `PathFinding.TwoDestinations` | Assets/Scripts/PathFinder.cs:116-126 | With two destinations the nearer one is chosen, the first on a tie. |
| `PathFinding.NotTheClosest` | Assets/Scripts/PathFinder.cs:117-125 | At distances 10, 5 and 7 the third is chosen, although the second is nearer. |
| `PathFinding.PathFinder.Prepare` | Assets/Scripts/PathFinder.cs:109-135 | An unset start becomes the component's own position. The destination is the last one strictly closer than the first, or the first. |
| `PathFinding.PathFinder.CalculatePath` | Assets/Scripts/PathFinder.cs:75-107 | It does nothing without destinations. Without an analysed site it stops unless forced. Otherwise it prepares. |
| `CollectionExtensions.DecideEnding` | Assets/Scripts/Misc/ICollectionExtensions.cs:5-8 | The ending is "" exactly for one element, otherwise "s", so at most one character. |
| `StringExtensions.DecideEnding` | Assets/Scripts/Misc/StringExtensions.cs:5-8 | The ending is "s" exactly when the count is not one, otherwise "". |
| `StringExtensions.SameAsCollectionExtensions` | Assets/Scripts/Misc/StringExtensions.cs:5-8 | The two copies agree on every collection. |

## Left out

- Floating point: all arithmetic is on exact reals, and thresholds are the decimal values written in Constants.cs. `Vector3.Distance` and `Vector3.Angle` (square root, arc cosine) are uninterpreted functions of a `Metric`. Lemmas that need distances to be non-negative, symmetric and zero on equal points ask for `Metric.Valid()`.
- `NavigationInstructions.Log` and `CheckForIntersections` are not part of this model. The first only writes to the debug log. The second is a physics ray-cast stub that is never called.
- The `objectsOfInterest` argument of the `NavigationInstructions` constructor is stored but never used by the modelled code, so the model does not take it.
- In the C# code, `Merge` calls `ExtendTo`, which `NavigationInstruction` does not declare. The model calls `Extend`, the only method that fits.
- The infinite sentinel vectors that mark the two ends of the path in `GetInstruction` are replaced by a `Position` datatype (origin, interior, destination).
- `string.Format` is not modelled: a rendered text is the template alone, or the template with its number. Number formatting is not modelled.
- Unity objects are values: a node, a transform or a destination is its data. Object identity, aliasing between scene objects and `Destroy` are not captured. A node's `active` flag is its own; whether its ancestors are active is passed to the searches as a flag, since a tree value does not know its parents.
- The NavMesh bake (`BakeNavMesh`, its settings, the bounds the loops grow, the NavMesh data cacher and `NavMesh.RemoveAllNavMeshData`) is reduced to one step that succeeds or throws. `Debug.LogError` on a caught exception is not modelled.
- `PathFinder.Bake`, `DrawPath` and the NavMesh settings `Prepare` writes are not part of this model.
- `TriggerSiteAnalysis`, which the forced path of `CalculatePath` calls, is declared by no site class in the repository. It is not part of this model, and the forced path goes straight on to `Prepare`.
- The Unity "fake null" test on `startingPoint` (comparing its `ToString()` with "null") is modelled as an unset `Option`.
- `Start`, which runs `Analyse` on the sample sites, and the delegate subscriptions of the other components are not part of this model. The `OnAnalysed` delegate is reduced to whether a listener is set and a count of invocations.
- SimplePathFinder.cs, SimpleSite.cs, Models/SimpleNavigationSite.cs, the Editor components, NavDataCacher.cs and NavDataLocalCacher.cs are not part of this model.
- Scene.MeshFilters: a collected object's mesh filters are listed as if the object's ancestors were all active. The collectors are parameters, so the model does not know where in the scene a collected object sits.
- NavMeshSite.NavigationSite.Analyse: states the lists and the sources only when every collector returned. What a throwing collector leaves behind is stated by `NavMeshSite.NavigationSite.TryAnalyse` and `Collect`.
