# Graph: an adjacency-list graph with DFS and BFS, in Dafny

This project models the `Graph` class of `graph.js`. The class is an in-memory graph stored as a JavaScript
`Map` from each vertex to an ordered list of neighbours. Its directedness is fixed when the graph is constructed.

It has four mutators:

- `addVertex`
- `addEdge`
- `removeEdge`
- `removeVertex`

It has three traversals:

- recursive `dfs`, with the closure `dfsHelper`
- stack-based `dfsIterative`
- queue-based `bfs`

It has four queries:

- `hasEdge`
- `getVertices`
- `getVertexCount`
- `getEdgeCount`

The model has six modules.

- `Ids` (`ids.dfy`) covers vertex identifiers.
  - A vertex is a string or an integer (`Id`).
  - `IsFalsy` stands for JavaScript falsiness on those: the empty string and 0.
- `Seqs` (`seqs.dfy`) holds the list vocabulary.
  - `RemoveAll` is `Array.prototype.filter(v => v !== x)`.
  - `Unvisited` filters out a visited set.
  - The module also defines `Count`, `Distinct` and `IsSubsequence`.
- `Adjacency` (`adjacency.dfy`) treats the Map as a value, `AdjacencyList(keys, adj)`.
  - `keys` is the Map's insertion order. `Map.set` on a known key does not move it.
  - `adj` maps each vertex to its neighbour list.
  - Each mutator has one specification function: `AddVertexOf`, `AddEdgeOf`, `RemoveEdgeOf` and `RemoveVertexOf`.
  - `RemoveVertexOf` runs `RemoveEdgesTo` over a snapshot of the keys, then deletes the vertex.
  - The invariant `Inv` holds four things:
    - the keys are distinct and are exactly the Map's keys;
    - every stored neighbour is a known vertex;
    - when the graph is undirected, `u` occurs in `v`'s list as often as `v` occurs in `u`'s;
    - when undirected, self-loops occur an even number of times, and the total list length is even, which every mutator keeps.
  - The module proves each mutator's effect and that each keeps `Inv`.
- `Traversal` (`traversal.dfy`) defines the order each traversal produces, as recursive functions of the Map.
  - `DfsVisit`/`DfsVisitAll` give the recursive helper's order.
  - `StackRun` gives the stack loop's order. The pending stack is read from the top.
  - `BfsRun`/`Enqueued` give the queue loop's order.
  - The module proves reachability, freedom from duplicates and the start vertex for each order.
  - It also proves that the recursive and the stack-based searches agree.
- `Graphs` (`graph.dfy`) is the class `Graph`.
  - Its fields are `isDirected`, `keys` and `adj`, which methods update in place.
  - Each mutator's new state is tied to the specification function through `Model()`.
  - Each traversal method runs the source's loops against the matching order function. It uses loop invariants of the form "output so far + what the rest of the run will output = the whole order".
  - The recursive helper gets the closure's `visited` and `result` as parameters and returns them.
- `Demo` (`demo.dfy`) covers the four graphs the file's test script builds.
  - Each graph is built edge by edge through the class, and its traversal results and counts are proved.
  - Test 3 prints `hasEdge('Y', 'X')` under a cross mark, as though it were expected to be false. On the undirected graph it is true, and `EdgeOperationsScenario` proves that.

## Model

| member | source | states |
|---|---|---|
| Graphs.Graph.constructor | graph.js:2-5 | a new graph has the empty Map, keeps the given directedness and satisfies the invariant |
| Graphs.Graph.AddVertex | graph.js:8-12 | the new state is `AddVertexOf` of the old one and the invariant is kept |
| Graphs.Graph.AddEdge | graph.js:15-27 | the new state is `AddEdgeOf` of the old one; the invariant is kept; afterwards `hasEdge(v1, v2)` holds and, when undirected, so does `hasEdge(v2, v1)`; the edge count grows by exactly one |
| Graphs.Graph.RemoveEdge | graph.js:30-45 | the new state is `RemoveEdgeOf` of the old one; the invariant is kept; afterwards `hasEdge(v1, v2)` is false and, when undirected, so is `hasEdge(v2, v1)`; when there was no edge from `v1` to `v2` the graph is unchanged |
| Graphs.Graph.RemoveVertex | graph.js:48-60 | the new state is `RemoveVertexOf` of the old one; the invariant is kept; afterwards the vertex is not among the vertices and no vertex has an edge to it |
| Graphs.Graph.RemoveEdgesToVertex | graph.js:54-56 | the key loop calls `removeEdge(k, x)` for each key `k` of the snapshot, in order, and keeps the invariant throughout |
| Graphs.Graph.HasEdge | graph.js:63-68 | true exactly when the first vertex is known and the second occurs at least once in its list |
| Graphs.Graph.Vertices | graph.js:168-170 | the vertices in insertion order, each once, exactly the known vertices |
| Graphs.Graph.VertexCount | graph.js:173-175 | the Map's size equals the length of `getVertices()` |
| Graphs.Graph.EdgeCount | graph.js:178-184 | the summing loop returns the total list length when directed and exactly half of it when undirected |
| Graphs.Graph.DfsHelper | graph.js:87-103 | the helper appends exactly `DfsVisit` of its vertex to `result` and marks exactly the vertices it appends |
| Graphs.Graph.Dfs | graph.js:83-107 | `[]` for a falsy start; `[start]` for an unknown non-falsy start; otherwise the result starts with `start`, has no repeats and holds only reachable vertices; for a known start with no falsy vertex reachable it equals `dfsIterative`'s result and holds every reachable vertex |
| Graphs.Graph.DfsIterative | graph.js:110-137 | `[]` for an unknown start; otherwise the result starts with `start`, has no repeats and holds exactly the reachable vertices |
| Graphs.PushNeighbours | graph.js:126-132 | pushing the unvisited neighbours from last to first leaves them on top of the stack in list order |
| Graphs.Graph.Bfs | graph.js:140-165 | `[]` for an unknown start; otherwise the result starts with `start`, has no repeats and holds exactly the reachable vertices |
| Graphs.EnqueueNeighbours | graph.js:155-161 | the neighbour loop appends the unvisited neighbours in list order, each once, and marks exactly those as visited |
| Adjacency.Neighbours | graph.js:97 | only a known vertex has neighbours, an unknown one reading as the empty list; when every stored neighbour is known, so is every neighbour it returns |
| Adjacency.HasEdge | graph.js:63-68 | true exactly when the second vertex occurs at least once among the first one's neighbours, so an unknown first vertex has no edges |
| Adjacency.AddVertexOf | graph.js:8-12 | afterwards the vertex is known and no other key appears |
| Adjacency.AddVertexSpec | graph.js:8-12 | adding a vertex twice is the same as adding it once; a known vertex leaves the graph unchanged; a new one gets `[]` and is appended at the end of the key order; every existing list is unchanged |
| Adjacency.AddVertexKeepsInv | graph.js:8-12 | `addVertex` keeps the invariant |
| Adjacency.AddVertexEntries | graph.js:8-12 | `addVertex` leaves the total list length unchanged |
| Adjacency.AddEdgeOf | graph.js:15-27 | afterwards both endpoints are known and no other key appears |
| Adjacency.AddEdgeSpec | graph.js:15-27 | a missing endpoint is appended to the key order; `v` is appended to the end of `u`'s list; when undirected, `u` is appended to the end of `v`'s list (twice onto the same list for a self-loop); every other list is unchanged |
| Adjacency.AddEdgeHasEdge | graph.js:15-27 | there is no deduplication: `u`'s list gains exactly one more `v` (two for an undirected self-loop); afterwards `hasEdge(u, v)` holds, and when undirected so does `hasEdge(v, u)` |
| Adjacency.AddEdgeKeepsInv | graph.js:15-27 | `addEdge` keeps the invariant and adds 1 (directed) or 2 (undirected) to the total list length |
| Adjacency.AddEdgeCount | graph.js:15-27 | each `addEdge` adds exactly one to `getEdgeCount()` |
| Adjacency.PushEdge | graph.js:20-26 | the two pushes change no key and not the key order |
| Adjacency.PushEdgeLists | graph.js:20-26 | `v` is appended to the end of `u`'s list and, when undirected, `u` to the end of `v`'s list; every other list is unchanged |
| Adjacency.PushEdgeKeepsInv | graph.js:20-26 | the two pushes onto known lists keep the invariant and add 1 or 2 entries |
| Adjacency.RemoveEdgeOf | graph.js:30-45 | the keys and their order are unchanged |
| Adjacency.RemoveEdgeLists | graph.js:30-45 | `u`'s list loses every `v`; when undirected, `v`'s list loses every `u`; every other list is unchanged |
| Adjacency.RemoveEdgeSpec | graph.js:30-45 | afterwards `hasEdge(u, v)` is false, and when undirected so is `hasEdge(v, u)`; the filtered lists are as in `RemoveEdgeLists`; keys, key order and every other list are unchanged |
| Adjacency.RemoveEdgeKeepsInv | graph.js:30-45 | `removeEdge` keeps the invariant, including the even total length of an undirected graph |
| Adjacency.RemoveEdgeEntries | graph.js:30-45 | after `removeEdge` on an undirected graph the total list length is still even |
| Adjacency.RemoveEdgeUnknown | graph.js:30-45 | `removeEdge` with an unknown endpoint leaves the graph unchanged |
| Adjacency.RemoveEdgeAbsent | graph.js:30-45 | when there is no edge from `u` to `v`, `removeEdge(u, v)` leaves the graph unchanged; in an undirected graph `v`'s list then holds no `u` either |
| Adjacency.RemoveEdgesTo | graph.js:54-56 | the key loop changes no key and the key order |
| Adjacency.RemoveEdgesToOthers | graph.js:54-56 | after the key loop, each list other than `x`'s has lost every `x` if its key was in the snapshot, and is unchanged otherwise |
| Adjacency.RemoveVertexOf | graph.js:48-60 | afterwards the known vertices are the old ones without the removed vertex, whether or not it was known |
| Adjacency.RemoveVertexSpec | graph.js:48-60 | after removing a known vertex it is gone from the key order, the other keys keep their order, every remaining list is its old self with that vertex filtered out, and no vertex has an edge to it |
| Adjacency.RemoveVertexKeepsInv | graph.js:48-60 | `removeVertex` keeps the invariant |
| Adjacency.RemoveVertexUnknown | graph.js:49-51 | removing an unknown vertex leaves the graph unchanged |
| Adjacency.SumLengths | graph.js:179-182 | the running total of the list lengths is at least the length of each list it has summed |
| Adjacency.SumSnoc | graph.js:180-182 | one more pass of the summing loop adds the length of that key's list |
| Adjacency.SumUpdate | graph.js:179-182 | replacing one key's list changes the total by the difference in length |
| Adjacency.Entries | graph.js:179-182 | the total list length is at least the length of every vertex's list |
| Adjacency.EdgeCountOf | graph.js:178-184 | `getEdgeCount()` is the total list length when directed and half of it, rounded down, when undirected |
| Adjacency.SizeIsKeyCount | graph.js:173-175 | the Map's size equals the number of vertices `getVertices()` lists |
| Adjacency.EdgeCountExact | graph.js:178-184 | under the invariant the halving is exact: twice the edge count of an undirected graph is its total list length |
| Seqs.RemoveAll | graph.js:34 | `filter(v => v !== x)` removes every `x` and keeps every other element with its multiplicity |
| Seqs.RemoveAllKeepsOrder | graph.js:34 | the filtered list keeps the remaining elements in their original relative order |
| Seqs.RemoveAllAbsent | graph.js:34 | filtering out a value that does not occur returns the same list |
| Seqs.Unvisited | graph.js:128-132 | keeps exactly the elements not visited |
| Traversal.DfsVisit | graph.js:87-103 | the helper appends nothing exactly when its vertex is falsy or already visited, otherwise starts with that vertex; it never appends an already visited vertex |
| Traversal.DfsVisitAll | graph.js:98-102 | the neighbour loop never appends a vertex that was visited when it started |
| Traversal.DfsOrder | graph.js:83-107 | `dfs(start)` is empty exactly when `start` is falsy, and otherwise starts with `start` |
| Traversal.DfsVisitDistinct | graph.js:87-103 | the helper appends no vertex twice and none that was already visited |
| Traversal.DfsOrderSpec | graph.js:83-107 | `[]` for a falsy start; `[start]` for an unknown non-falsy start; otherwise it starts with `start`, has no repeats and holds only reachable vertices |
| Traversal.StackRun | graph.js:119-134 | when the top of the stack is unvisited it is the next vertex appended; no vertex visited before the run is appended |
| Traversal.DfsIterOrder | graph.js:110-137 | `dfsIterative(start)` is empty exactly when `start` is unknown, and otherwise starts with `start` |
| Traversal.DfsIterOrderSpec | graph.js:110-137 | for a known start, the stack search starts with `start`, has no repeats and holds exactly the reachable vertices |
| Traversal.StackRunUnvisited | graph.js:119-133 | already visited entries of the stack never change the run |
| Traversal.DfsMatchesIterative | graph.js:126-132 | pushing neighbours in reverse makes the stack search produce exactly the recursive search's order when the start is known and no falsy vertex is reachable |
| Traversal.Enqueued | graph.js:156-161 | the enqueued vertices are exactly the neighbours not yet visited, each once |
| Traversal.BfsOrder | graph.js:140-165 | `bfs(start)` is empty exactly when `start` is unknown, and otherwise starts with `start` |
| Traversal.BfsRunDistinct | graph.js:150-162 | a queue of distinct, visited vertices yields output with no repeats and no earlier-visited vertex outside the queue |
| Traversal.BfsRunWithin | graph.js:150-162 | the queue loop never leaves a set of vertices that is closed under edges and holds the queue |
| Traversal.BfsRunCloses | graph.js:150-162 | if every visited vertex outside the queue has only visited neighbours, then those vertices together with everything the loop outputs are closed under edges |
| Traversal.BfsOrderSpec | graph.js:140-165 | for a known start, the breadth-first order starts with `start`, has no repeats and holds exactly the reachable vertices |
| Demo.LettersDfs | graph.js:213 | `dfs('A')` on the undirected letter graph is A, B, D, C, E, F |
| Demo.LettersBfs | graph.js:221 | `bfs('A')` on the letter graph is A, B, C, D, E, F |
| Demo.LettersNoFalsy | graph.js:199-208 | no falsy vertex is reachable from A, so both depth-first searches agree there |
| Demo.LettersEdges | graph.js:224-226 | the letter graph has 6 vertices, 14 list entries and 7 edges |
| Demo.NumbersDfs | graph.js:246 | `dfs(1)` on the directed number graph is 1, 2, 4, 5, 6, 3 |
| Demo.NumbersBfs | graph.js:250 | `bfs(1)` on the number graph is 1, 2, 3, 4, 5, 6 |
| Demo.NumbersEdges | graph.js:253-255 | the number graph has 6 vertices and 7 edges |
| Demo.UndirectedScenario | graph.js:199-226 | building the letter graph with seven `addEdge` calls and running the traversals gives the recursive and iterative orders A, B, D, C, E, F, the BFS order A, B, C, D, E, F, 6 vertices and 7 edges |
| Demo.DirectedScenario | graph.js:232-255 | building the number graph gives the DFS order 1, 2, 4, 5, 6, 3, the BFS order 1, 2, 3, 4, 5, 6, 6 vertices and 7 edges |
| Demo.EdgeOperationsScenario | graph.js:261-277 | on X-Y, Y-Z, X-Z, `hasEdge` is true for X-Y, X-Z and Y-X; after `removeEdge('X', 'Z')`, `hasEdge('X', 'Z')` is false |
| Demo.TriangleDfs | graph.js:290 | `dfs('A')` on A-B, B-C, A-C is A, B, C |
| Demo.TriangleBfs | graph.js:291 | `bfs('A')` on A-B, B-C, A-C is A, B, C |
| Demo.TriangleScenario | graph.js:283-291 | building the three-vertex graph and searching from A gives A, B, C both ways |

## Left out

- `printGraph` (graph.js:71-80) and every `console.log` of the test script. They are console output and change no state. The script's graphs and results are covered in `Demo`.
- JavaScript truthiness covers only the two identifier kinds modelled: the empty string and 0 are falsy. `null`, `undefined`, `NaN`, objects and other value types are not modelled as vertices. Numbers are integers only: a non-integer vertex such as 1.5 cannot be represented.
- The constructor's default argument (`isDirected = false`) is not modelled. The Dafny constructor always takes the flag.
- The call-stack depth of the recursive `dfs` is not modelled. Termination is by the shrinking set of unvisited known vertices.
- `count / 2` in `getEdgeCount` is integer division. A non-integer result would need an odd total length in an undirected graph, and `Adjacency.EdgeCountExact` proves that cannot happen under the invariant.
- The key loop of `removeVertex` runs over a snapshot of the keys, not a live `Map` iterator. The loop only replaces values, so the keys it visits are the same.
- The neighbour loops of `dfsIterative` and `bfs` are separate methods (`PushNeighbours`, `EnqueueNeighbours`). They are called on a copy of the current list, so the model does not capture aliasing between that list and the Map.
- `dfsHelper` is a closure over `visited` and `result`. The model passes both in and returns them, instead of sharing mutable locals.
- The traversals are proved on the `adj` Map, where `get(v) || []` is `Neighbours`. A vertex stored in a list but missing from the Map has no neighbours, as in the source. Under the invariant this case does not arise.
- Graphs.Graph.Dfs: the claim that it holds every reachable vertex is stated only when no falsy vertex is reachable from a known start. A falsy vertex is skipped by the source, so it and whatever is reachable only through it are missing from the result.
