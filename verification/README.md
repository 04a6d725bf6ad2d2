# A verified model of the kvspace shared-memory store

kvspace keeps keys in an adaptive radix tree inside a shared memory file, values in boxes next to it, and lets
several processes read through tokens while one process writes. This project models that code in Dafny and proves
what it is meant to guarantee.

* **The tree** (`ArtNode`, `ArtTree`, `ArtSteps`, `ArtPool`, `ArtEffects`, `ArtInsert`, `ArtLookup`, `ArtMount`).
  Nodes are objects with the byte and child arrays of their layout, edited in place. A pool of them is tied, step by
  step, to a tree value in which every id has a permanent path. Insertion, deletion and lookup refine a map from
  keys to box offsets; cached references stay good for ever; a view token never survives a change of its box
  unnoticed. Reads follow links and fall back to a directory mounted on the parent of the key.
* **Scans** (`ArtScan`, `ArtChildren`) and **listing** (`Coord`, `Listing`, `ListCache`, `ListRace`). The scan that
  stops at child boundaries is shown to agree with a flat filter of the key map; sorting and removing repetitions
  turn it into the one sorted list; the per-handle cache answers what a new scan would answer, also against writers
  that change the tree and announce it later.
* **Values** (`Store`). Writing in place or into a new box, deleting, deleting a subtree, with everything else
  unchanged.
* **Deferred reclamation** (`Reclaim`, `ReclaimInv`, `ReclaimSteps`, `ReclaimSafety`, `ReclaimProgress`, `ReclaimLive`,
  `ReclaimRetire`, `ReclaimRun`). A step system of registry slots, view processes, one writer and any number of threads
  in any number of processes that may lead. A step makes at most one store that another process acts on; stores to
  words that nobody reads before a later step are merged with it. Death is possible before every step. Its invariant
  gives token safety, single free, single leader and the shape of the ring; and from every reachable state there is a
  way on that frees all that has been retired.

How the pieces are tied together: methods of the tree are proved against `ArtTree.Contents`, the key map of a tree
value; `ArtInsert.Evolves` says what any operation may do to existing ids, and the theorems about references and
tokens are about runs of `Evolves`; `Stores.Announced` says that a key-set change moves the list generation, and the
theorems about the list cache are about runs of `Announced`. Definitions that a method and its contract share are
spelled out by lemmas of their own, in bytes and without them: names ending in `Spelled`, `Coord.PlainOrder`,
`Coord.NumbersOrder`, `ArtMount.MountShows`, `ArtMount.ReadFollows`, `Listing.ListShows`.

Where a claim that suggests itself is not what the code does:

* `child_cmp` is not always an order. `Coord.OrderCycle` gives three names in a circle, `Listing.CircleUnsorted` a
  directory of three children that nothing sorts; `Coord.OrderIff` says exactly for which sets of names it is an
  order, `Listing.OrderableIff` for which directories, and `Listing.ListScan` when the list is sorted.
* A drain can stop at an entry that is due: when the entry at head is at least 2^31 rounds old, the signed
  difference is negative. `ReclaimSafety.DrainComplete` and `ReclaimSafety.DrainStalls` give the condition,
  `ReclaimRun.DrainCanStall` a run that comes to it.
* A reference does not always survive its own use: when `kvspaceShmGetByRef` answers from a mounted directory, it
  resolves the key again, which fails, and the reference is left zeroed. `ArtMount.GetByRef` says when,
  `ArtMount.ReferenceLost` gives a store in which it happens.
* An unreadable value hides the mounted one in a plain read, but not in a read that follows links: `ArtMount.Read`.
* `last_key_sep` ignores a slash at position 0 but not a U+00B7 there; `ArtLookup.LastKeySep` follows the code.
* Deleting the subtree of the empty prefix, or of a lone U+00B7, deletes everything under "/"
  (`Stores.EmptyTrunk`).

Assumptions, each visible as a parameter, a precondition or the guard of a step: node allocation in the tree
succeeds; there is one writer at a time; memory is sequentially consistent; a live process is never judged dead;
a registry slot has one live owner, so checking that an owner is dead and freeing its slot is one step, and opens do
not overlap; a caller's epoch variable does not start ahead of the store's; a process drops its tokens when an ack
reports a new epoch and before it declares itself quiet, and runs its view calls on one thread; a handle is closed
when none of its other threads is inside a call; a directory reference is used with keys that share the parent's path.

Run `dafny verify dfyconfig.toml` to check everything.

## Model

| member | source | states |
|---|---|---|
| `ArtNodes.ArtNode.Child` | src/kvspace.c:1532-1566 | each of the four layouts answers the same child for a byte as the map the node denotes, or -1; for N16 this is the binary search |
| `ArtNodes.ArtNode.Bisect` | src/kvspace.c:1542-1555 | binary search over the sorted keys of an N16 finds the byte iff it is there |
| `ArtNodes.ArtNode.AddChild` | src/kvspace.c:1814-1862 | a new byte is refused exactly when the layout is full; otherwise the map gains that one edge and the layout stays well formed (N16 sorted, N48 index and slots inverse to each other, N256 count right) |
| `ArtNodes.ArtNode.InsertSorted` | src/kvspace.c:1827-1841 | the N16 shift loop keeps the keys strictly sorted and children in step with them |
| `ArtNodes.InsertAt` | src/kvspace.c:1831-1839 | inserting a byte at a position of a well-formed slot list gives the slot list and edges with exactly that byte more |
| `ArtNodes.RemoveAt` | src/kvspace.c:1870-1902 | closing the gap at a position gives the slot list and edges with exactly that byte less, and keeps a sorted list sorted |
| `ArtNodes.ArtNode.RemoveChild` | src/kvspace.c:1865-1929 | a removed byte is gone, every other edge stays, and the layout stays well formed, including the N48 swap of the last slot into the hole |
| `ArtNodes.SwapOut` | src/kvspace.c:1904-1921 | moving the last N48 slot into the hole and redirecting its index entry removes exactly one edge |
| `ArtNodes.ArtNode.CopyChildren` | src/kvspace.c:1742-1802 | growing copies exactly the edges of the smaller node into the empty larger one, sorting N4 keys into an N16 |
| `ArtNodes.ArtNode.SortKeys` | src/kvspace.c:1790-1802 | the exchange sort leaves keys strictly sorted, with each child still under its byte |
| `ArtNodes.ListsCount` | src/kvspace.c:1814-1862 | a node with inverse slot tables has as many edges as slots, so its count is right |
| `ArtNodes.ArtNode.ReplaceChild` | src/kvspace.c:2017-2020 | the pointer for one byte changes in place and every other edge stays |
| `ArtNodes.ArtNode.MoveTo` | src/kvspace.c:1803-1809 | a grown node becomes a stub: no value, forwarding id in its word, generation moved on |
| `ArtNodes.ArtNode.SplitAt` | src/kvspace.c:1976-1985 | splitting keeps the first bytes of the prefix in the new parent, drops them and the selecting byte from the old node, and leaves its children and value alone |
| `ArtTree.SlotLeadsTo` | src/kvspace.c:1570-1593 | unique paths: every standing path that runs through the slot of a node runs through the node itself |
| `ArtTree.NothingBehind` | src/kvspace.c:1570-1593 | behind a vacant child slot no key stands, so a walk that meets one may stop |
| `ArtSteps.LeafAdded` | src/kvspace.c:1695-1721 | a new leaf in a vacant slot keeps the whole tree invariant |
| `ArtSteps.Grown` | src/kvspace.c:1724-1811 | growth keeps the tree invariant: the new node stands at the same path and the old id forwards to a larger layout |
| `ArtSteps.WasSplit` | src/kvspace.c:1971-2006 | a prefix split keeps the tree invariant: the parent takes over the slot, the old node keeps its id and its path |
| `ArtSteps.DropPending` | src/kvspace.c:2012-2022 | writing the returned child id into the slot above settles a rebuilt subtree, or nothing when the id is unchanged |
| `ArtPools.ArtPool.GrowNode` | src/kvspace.c:1724-1811 | in the pool, growth of node objects is the tree step Grow |
| `ArtPools.ArtPool.SplitNode` | src/kvspace.c:1971-2006 | in the pool, a split of node objects is the tree step Split |
| `ArtPools.ArtPool.NewLeaf` | src/kvspace.c:1695-1721 | a new node gets the next id, with the next value of the allocation epoch as its generation |
| `ArtPools.NextHoldsMore` | src/kvspace.c:1725-1734 | a full node grows to the smallest layout that holds more, of 4, 16, 48 and 256 children |
| `ArtEffects.EffectThen` | src/kvspace.c:1960-2037 | what two consecutive steps write is the union of what each writes, the later one winning; short paths stay untouched and generations do not fall |
| `ArtInsert.PfxShared` | src/kvspace.c:1523-1529 | the length of the longest common prefix |
| `ArtInsert.LeafChain` | src/kvspace.c:1933-1957 | the rest of a key hangs as a chain of nodes of at most ten prefix bytes each, ending in the value, and nothing else changes |
| `ArtInsert.Ins` | src/kvspace.c:1960-2037 | one recursive call of art_ins: in every branch (end inside a prefix, leave a prefix, end at the node, go down, hang a child, grow first) the tree invariant holds, the key is bound, no other word changes |
| `ArtInsert.Insert` | src/kvspace.c:1960-2037 | the key map afterwards is the old map with key bound to the offset, whatever splits, chains and growth it took; ids keep their paths and words change only behind a changed generation, except for the key itself |
| `ArtInsert.HangGrown` | src/kvspace.c:2023-2034 | a full node grows and then takes the new child; the slot above receives the new id |
| `ArtLookup.Walk` | src/kvspace.c:1570-1593 | the walk from any node on the way finds the holder of the key, and -1 iff there is none |
| `ArtLookup.Find` | src/kvspace.c:1596-1612 | search from the root finds exactly the node that holds the key |
| `ArtLookup.Get` | src/kvspace.c:1677-1681 | the box offset found is the one the key map holds, and none iff the key is not live |
| `ArtLookup.Follow` | src/kvspace.c:1682-1692 | every id ever allocated leads, over a chain of at most three forwarding hops, to the node now standing at its path; the limit of eight never rejects one |
| `ArtLookup.ThreeHops` | src/kvspace.c:1682-1692 | no chain of forwarding stubs, from whatever id, has more than three hops, because layouts only get larger along it |
| `ArtLookup.IdPath` | src/kvspace.c:1682-1692 | a stub forwards to an id with the same path and a larger layout |
| `ArtLookup.LastKeySep` | src/kvspace.c:1615-1633 | the last separator of a key and its length; a lone leading slash does not count |
| `ArtLookup.FindDir` | src/kvspace.c:1638-1676 | search with a directory: the holder as by Find; when the walk reaches the end of the key also the first node on the way that covers the separator, its path being exactly the first dird bytes of the key, or none iff no node on the way does; on a miss no directory |
| `ArtLookup.ResolveRef` | src/kvspace.c:2869-2894 | a reference exists iff the key is live and not reserved; it names the node of the key; its depth is the length of the shortest standing path on the way whose node has the last separator in its prefix or ends with it, 0 iff there is none, and its parent names the node there |
| `ArtLookup.RefLeaf` | src/kvspace.c:2845-2867 | from a leaf reference or from a directory reference at its depth, the same node as a search from the root; the reference with its stubs followed still fits |
| `ArtMount.GetByRef` | src/kvspace.c:2896-2923 | a live readable key is read as by search from the root; a leaf reference to any other key reads what a read by key reads, a directory reference nothing; the reference that comes back fits, except that after a read through a mounted directory it is the zeroed one, which fits iff node 0 is the key's own |
| `ArtMount.ReferenceLost` | src/kvspace.c:2911-2922 | a tree that mounts /s/ on the root, where reading the deleted key /b through its reference answers /s/b and leaves a reference that names / |
| `ArtMount.ShmGet` | src/kvspace.c:2786-2842 | nothing for reserved or over-long keys, else the key's own value or the one at the end of its links, else the value that the key reached stands for in the directory mounted on its parent; an unreadable value hides the mounted one unless links are followed |
| `ArtMount.MountShows` | src/kvspace.c:2806-2841 | without following links a live key shows its own value, or nothing if that is not in order; under a mounted directory any other name shows the value of the same name in the source, and nothing where no directory is mounted |
| `ArtMount.ReadFollows` | src/kvspace.c:2803-2804 | following links, a chain of at most fifteen of them leads to the value at its end, and that is what is read |
| `ArtMount.ReadFallsBack` | src/kvspace.c:2803-2833 | when there is no value in order at the end of the links, or sixteen have been followed, the mounted value read is that of the key last reached, not of the key asked for |
| `ArtMount.JoinSpelled` | src/kvspace.c:2081-2090 | exactly one / stands between the parts |
| `ArtMount.SplitThenJoin` | src/kvspace.c:2081-2103 | joining the parts of a split key gives the key again, with a '/' in front if it had none |
| `ArtMount.JoinThenSplit` | src/kvspace.c:2081-2103 | splitting a directory joined with a name gives that directory and that name |
| `ArtMount.DirExtPath` | src/kvspace.c:2760-2782 | the mounted directory is the locator, neither empty nor over-long, in the readable value of the directory key, if there is one |
| `ArtMount.ResolveFetch` | src/kvspace.c:2715-2748 | the loop over links ends where the recursive definition does, with the same value |
| `ArtMount.ResolveChain` | src/kvspace.c:2715-2748 | resolving walks one chain of at most sixteen links and finds a value only at an end that links no further |
| `ArtLookup.RefsLast` | src/kvspace.c:1682-1692 | permanent identity: a reference that fits a tree fits it after any run of inserts, splits, growths and deletes |
| `ArtLookup.TokensCatchChange` | src/kvspace.c:793-814 | no ABA: if after any run the generation of a node is unchanged and it has a value, its word named that same box all along |
| `ArtLookup.NodeAtKey` | src/kvspace.c:443-466 | the node of a key that has one, with or without a value; else the node that all longer standing keys stand at or below, and -1 iff there are none |
| `ArtLookup.Bind` | src/kvspace.c:3184-3200 | insert followed by the generation bump: the key map gains the binding and every word change on the way lies behind a changed generation |
| `ArtLookup.Del` | src/kvspace.c:2040-2078 | deletion from any node on the way: missing, gone, or refused when the ring has no room; only the key's word is cleared |
| `ArtLookup.Unbind` | src/kvspace.c:2040-2078 | deletion from the root: the key map loses exactly this key, or is unchanged |
| `ArtScan.HasLiveValue` | src/kvspace.c:2212-2245 | true iff some live key stands at or below the node, tombstones notwithstanding |
| `ArtScan.CollectKeys` | src/kvspace.c:2350-2414 | exactly the live keys at or below the node, each once |
| `ArtScan.Cover` | src/kvspace.c:2131-2164 | the covering node: every standing key with the prefix stands at or below it, and -1 means there is none |
| `ArtScan.ScanKeys` | src/kvspace.c:2417-2428 | exactly the live keys that start with the prefix, each once; a prefix that does not fit the buffer is refused |
| `ArtScan.BelowChild` | src/kvspace.c:2350-2414 | what stands strictly below a node stands at or below the child its next byte selects |
| `ArtChildren.ChildNameLen` | src/kvspace.c:2200-2209 | the position of the first '/' or U+00B7, or the whole length |
| `ArtChildren.NameSpelled` | src/kvspace.c:2200-2209 | the child a key shows is what stands between the prefix and the first / or U+00B7 after it |
| `ArtChildren.EndFrom` | src/kvspace.c:2254-2262 | looking again from the last byte of the parent's part finds the first boundary of the whole part, also for a U+00B7 split between the two |
| `ArtChildren.SameName` | src/kvspace.c:2263-2274 | all keys through a node with a boundary show the same child, so the scan may stop there |
| `ArtChildren.ScanChildren` | src/kvspace.c:2247-2334 | everything emitted is shown by a live key below the node, and every live key below the node is shown, as a directory when it is the marker itself |
| `ArtChildren.ShownIsChildren` | src/kvspace.c:2247-2334 | such names are what a flat filter over the key map lists |
| `ArtChildren.ScanPfx` | src/kvspace.c:2336-2346 | the direct children: a name is emitted, with or without '/', iff a live key shows it, and name/ iff that marker is live; no empty names; a prefix that does not fit is refused |
| `Coord.IsCoord` | src/coord.c:5-16 | true iff the name is a bracket pair with something between and no other bracket |
| `Coord.ParseCoord` | src/coord.c:18-44 | the loop over the caller's array yields what the specification parser yields, at most eight numbers, or -1 |
| `Coord.ItemsSpelled` | src/coord.c:24-43 | the parser accepts exactly the comma-separated decimal numbers closed by ']' that fit, with their values |
| `Coord.CoordsSpelled` | src/coord.c:18-44 | a name parses to v iff it is '[' followed by the decimal spelling of v, with at most eight numbers |
| `Coord.CoordCmp` | src/coord.c:46-66 | the comparison loop equals the order by numbers, by kind and by bytes that PlainOrder and NumbersOrder spell out |
| `Coord.StrOrder` | src/coord.c:46-66 | names compare by bytes: a proper beginning first, else the smaller byte where they first differ |
| `Coord.BracketedSpelled` | src/coord.c:5-16 | a coordinate is a pair of brackets with something between them and no other bracket |
| `Coord.WrittenReads` | src/coord.c:18-44 | up to eight numbers written in decimal between brackets are read back, more are not |
| `Coord.OrderCycle` | src/coord.c:55-58 | the comparison runs in a circle: [2] before [10] before [1a] before [2] |
| `Coord.ChildCmp` | src/kvspace.c:3781-3791 | the comparator equals its specification on names with and without a trailing '/' |
| `Coord.PlainOrder` | src/kvspace.c:3781-3791 | every coordinate comes before every plain name; plain names go by the bytes of their stems, a name before its directory |
| `Coord.NumbersOrder` | src/kvspace.c:3781-3791 | two coordinates with different numbers go by the first number that differs, a shorter list before its extensions; other coordinates go by bytes |
| `Coord.ChildFlip` | src/kvspace.c:3781-3791 | swapping the names flips the order and only equal names tie, for all names |
| `Coord.OrderIff` | src/kvspace.c:3781-3791 | child_cmp is transitive on a set of names iff no coordinate that does not parse lies, by bytes, between two that parse and that stand the other way round by number |
| `Coord.OrderedWithoutOdd` | src/kvspace.c:3781-3791 | it is a total order on names all of whose coordinates parse |
| `Coord.BracketedOrder` | src/kvspace.c:3781-3791 | two coordinates: their numbers when both parse and differ, else the bytes of the full names |
| `Coord.SameChildAdjacent` | src/kvspace.c:3793-3798 | between the two spellings of a child no other child sorts |
| `Listing.Sort` | src/kvspace.c:3845-3847 | a permutation of the names, sorted iff child_cmp is transitive on them (standing for qsort) |
| `Listing.ArrangedStraight` | src/kvspace.c:3845-3847 | in a list sorted by child_cmp no name straddles two others |
| `Listing.CircleUnsorted` | src/kvspace.c:3845-3847 | no arrangement whatever sorts [2], [10] and [1a] |
| `Listing.Shows` | src/kvspace.c:3850-3860 | hidden are exactly .kvspace-meta under the root and names with U+2025 |
| `Listing.VisibleSpelled` | src/kvspace.c:3850-3860 | hidden are all names with U+2025 anywhere in them, .kvspace-meta under the root, and nothing else |
| `Listing.Compact` | src/kvspace.c:3848-3871 | the in-place pass keeps only visible names, keeps every visible child, prefers the directory entry, and on sorted input leaves a sorted list without repeated children |
| `Listing.EmittedList` | src/kvspace.c:3835-3879 | scanned names, filtered and with each child once, are the list as a function of the key map |
| `Listing.ListShows` | src/kvspace.c:3835-3879 | every live key below the directory, or below the mounted one, puts its child into the list, as name/ iff that marker is live |
| `Listing.ListedLive` | src/kvspace.c:3835-3879 | every name in the list is shown by a live key and is not hidden |
| `Listing.ListedOrder` | src/kvspace.c:3845-3847 | in a sorted list coordinates stand first, by their numbers, and plain names follow in byte order |
| `Listing.OrderableNames` | src/kvspace.c:3845-3847 | when no child of the directory straddles, child_cmp orders the scanned names |
| `Listing.OrderableIff` | src/kvspace.c:3845-3847 | child_cmp orders the scanned names iff no child of the directory straddles two others |
| `Listing.DirectoryInACircle` | src/kvspace.c:3845-3847 | a directory with the children [2], [10] and [1a] is one that cannot be listed in order |
| `Listing.ListScan` | src/kvspace.c:3835-3879 | the list of target and mounted source: name/ iff a marker is live in either, name iff only values or descendants are, U+2025 names hidden, strictly sorted, no child twice, when no child straddles; sorted only if no listed child straddles, and sorted iff no child does when no coordinate is hidden; refused iff a prefix does not fit |
| `Stores.Store.Set` | src/kvspace.c:3132-3206 | on success the key reads the written bytes, in place iff the box holds value, reserve and the status minimum, else from a new box with the old one retired; every other key reads the same bytes, no box changes capacity, nothing happens on failure, the number of open reservations is as before on every exit, and the list generation moves iff the key set grew |
| `Stores.Need` | src/kvspace.c:3134-3138 | the capacity asked for covers the value, the reserve and, for vthread status keys, 80 bytes, and is one of the three |
| `Stores.StatusSpelled` | src/kvspace.c:3048-3056 | status keys are /vthread, nothing or / and anything, /, U+2025 and status |
| `Stores.Overwritten` | src/kvspace.c:3145-3154 | writing into the front of a box changes what its one key reads and nothing else |
| `Stores.Rehoused` | src/kvspace.c:3170-3202 | a new box for one key leaves what others read alone, and no box is linked twice or both linked and retired |
| `Stores.Store.DelKey` | src/kvspace.c:3483-3491 | deletes one live key if the ring has room, retiring its box |
| `Stores.Store.Del` | src/kvspace.c:3493-3505 | 0 iff a live key was deleted; the list generation moves with the key set |
| `Stores.Store.Deltree` | src/kvspace.c:3551-3601 | with no pointer at prefix or trunk: of the live keys exactly base itself and base followed by /, U+00B7 or U+2025 go, if not reserved and the ring takes their box (siblings that share the bytes of base stay), 0 is returned iff it takes all, and the list generation moves once iff a key went; with a pointer only the pointer and its companion go; refused prefixes change nothing |
| `Stores.SubtreeSpelled` | src/kvspace.c:3517-3530 | a key belongs to the subtree iff it is base, or base with one of the three separators behind it; the empty base has every key that starts with / |
| `Stores.TrunkSpelled` | src/kvspace.c:3562-3569 | one closing / or U+00B7 is taken off the prefix, and / alone is the root |
| `Stores.DeletableSpelled` | src/kvspace.c:3552-3572 | refused are exactly over-long prefixes, reserved ones, and the reserved directory closed by U+00B7 |
| `Stores.LinkedSpelled` | src/kvspace.c:3533-3546 | a directory is reached through a pointer iff the value of the prefix is one, or that of the directory it denotes |
| `Stores.EmptyTrunk` | src/kvspace.c:3562-3569 | the empty prefix and a lone U+00B7 delete the same subtree as / |
| `Bytes.ReservedSpelled` | src/kvspace.c:52-56 | reserved are /.kvspace-meta and what follows it with a / |
| `Stores.Store.DeleteKeys` | src/kvspace.c:3585-3597 | of the scanned keys exactly those of the subtree are deleted |
| `Stores.Swept` | src/kvspace.c:3580-3584 | a scan from the trunk meets every key of the subtree |
| `Stores.Store.ViewFromRef` | src/kvspace.c:680-716 | a token exists iff the reference is a leaf reference, the key is live, and its value has a head in order and is no reference; it carries the handle, node, generation and box |
| `Stores.Store.ViewCheck` | src/kvspace.c:793-814 | 0 iff handle, epoch and generation are those of the token and the node's word still names its box; a token of another handle or epoch is never good |
| `Stores.GoodTokensKeep` | src/kvspace.c:793-814 | no ABA: a token that checks at the start and at the end of a run named that one box in every state between |
| `Stores.Store.ViewDel` | src/kvspace.c:840-872 | through a good token exactly the token's key is deleted and its box retired; a token of another handle, epoch or generation, or a full ring, changes nothing |
| `ListCaches.ListTarget` | src/kvspace.c:3804-3832 | refused are exactly the unreserved prefixes that are badly ended or over-long; only reserved paths are nowhere; with links followed the directory is the end of the chain; the second one is the one mounted on it whenever there is one and it is asked for |
| `ListCaches.FindTarget` | src/kvspace.c:3804-3832 | the code finds that directory and that mounted one from the tree and the values in it |
| `ListCaches.ListFollows` | src/kvspace.c:3804-3832 | the directory listed is the one at the end of the links, or the seventeenth key on the way |
| `ListCaches.BadDirSpelled` | src/kvspace.c:2106-2119 | a directory prefix ends in / or U+00B7 |
| `ListCaches.ListCache.List` | src/kvspace.c:3909-3949 | the names answered for the resolved directory are a list of the current key map, whether from the cache or from a new scan, the cache stays coherent, and the call fails only on a refused or over-long directory |
| `ListCaches.SameKeysSameAnswer` | src/kvspace.c:3909-3949 | a list depends on the set of live keys only, not on their boxes |
| `ListCaches.OneAnswer` | src/kvspace.c:3909-3949 | there is only one such list, so a hit gives exactly what a new scan would |
| `ListCaches.CacheSurvives` | src/kvspace.c:254-256 | over any run of writes that move the generation with every key-set change, a cache whose generation still matches is current |
| `ListRace.NeverStale` | src/kvspace.c:3909-3949 | in every interleaving of writers that change, later bump, and may die between, a call that starts after a change has returned never answers from names whose scan began before it |
| `ListRace.StepKeeps` | src/kvspace.c:3909-3949 | each single load, store, scan or death keeps that invariant |
| `ListRace.AnnouncementsReach` | src/kvspace.c:3909-3949 | an announced change is known to every later call, and no cache filled before the announcement answers one |
| `ListRace.QuietHits` | src/kvspace.c:3909-3949 | with no announcement since its scan began, the next call for the same list answers from the names scanned |
| `ReclaimSafety.HeldBoxesStay` | src/kvspace.c:680-716 | in every run, a box named by a token that a live process holds is neither freed nor reused, and if it is retired then with an epoch no older than the token |
| `ReclaimSafety.FreedOnce` | src/kvspace.c:1048-1063 | between two frees of a box lies an allocation of it, whoever dies between any two stores |
| `ReclaimSafety.OneLeader` | src/kvspace.c:931-962 | at most one live thread, among any number of threads in any number of processes, is between winning the election and releasing it, also after a takeover from a dead owner, and the election word names its process |
| `ReclaimSafety.RingHolds` | src/kvspace.c:389-440 | head <= tail <= head + cap; entries outside the window are empty, apart from an unpublished reservation at tail; committed epochs rise with the index |
| `ReclaimSafety.DrainComplete` | src/kvspace.c:1016-1069 | when a drain ends, every committed entry left carries an epoch of this round or later, unless the entry at head is reserved by a live writer, or is itself 2^31 rounds old or more |
| `ReclaimSafety.DrainStalls` | src/kvspace.c:1044-1049 | a committed entry less than 2^32 rounds behind is taken iff it is less than 2^31 behind, and stops the drain iff not |
| `ReclaimRun.DrainCanStall` | src/kvspace.c:1016-1101 | such a stall is reached: some run from a new store gives up 2^31 - 1 rounds and then ends a drain at a committed entry that is due |
| `ReclaimSafety.NoReservationLeft` | src/kvspace.c:3132-3206 | a live writer that is not in an operation has no reserved entry in the ring |
| `ReclaimSafety.BoxesApart` | src/kvspace.c:423-440 | linked boxes, boxes of committed entries and free boxes are pairwise different, no box is linked twice and none committed twice |
| `ReclaimLive.NothingStuck` | src/kvspace.c:389-1119 | from every state of every run in which some process is alive that may lead and no entry is 2^31 rounds old, the run can go on, with nobody dying and no key changing, until the ring is empty and every box is free that was in it or in the hands of a live leader |
| `ReclaimLive.TakesOver` | src/kvspace.c:931-955 | a live thread that finds the word of a dead process sees, judges and wins it |
| `ReclaimLive.DrainsUp` | src/kvspace.c:1016-1069 | a drain goes on, freeing, to the first entry that stops it, and ends there |
| `ReclaimLive.Rests` | src/kvspace.c:389-440 | a writer stopped anywhere in its operation can complete or cancel it with what is in the ring accounted for |
| `ReclaimRetire.KeyCanGo` | src/kvspace.c:389-440 | with an entry to spare a key can be deleted: its box goes to the tail of the ring with the current epoch, and nothing else changes |
| `ReclaimRetire.KeyCanMove` | src/kvspace.c:389-440 | with an entry to spare a key can be moved to a free box: the old box goes to the tail of the ring with the current epoch |
| `ReclaimProgress.AckStores` | src/kvspace.c:1181-1193 | an ack that finds a new epoch drops the tokens and stores nothing; one that finds the known epoch stores it in the slot |
| `ReclaimProgress.AckPasses` | src/kvspace.c:966-1012 | after an ack of the known epoch the slot passes in that epoch's round |
| `ReclaimProgress.CaughtUpPasses` | src/kvspace.c:966-1012 | when every live process has acked, every slot passes |
| `ReclaimProgress.Joins` | src/kvspace.c:529-572 | a process that opens takes a vacant slot or that of a dead process, acked and quiet, and holds no round back |
| `ReclaimProgress.ResolveNames` | src/kvspace.c:718-724 | resolving a key gives a token for the box it is linked to, born in the current epoch |
| `ReclaimProgress.RunGood` | src/kvspace.c:389-1119 | in every state of every run a slot in use is that of its owner, and an election word that names a live process is held by one of its threads in a round |
| `ReclaimSafety.DueIsLater` | src/kvspace.c:1046-1047 | the signed 32-bit difference test is the true order while epochs are less than 2^31 apart, also on wrapped values |
| `ReclaimSafety.StepKeepsInv` | src/kvspace.c:389-1119 | every enabled step of every process, including death, keeps the invariant |
| `ReclaimSafety.RunInv` | src/kvspace.c:389-1119 | every state of every run from a new store satisfies the invariant |
| `ReclaimSteps.PassClears` | src/kvspace.c:966-1012 | a slot that passes in round r - unregistered, acked, quiet, dead - holds no client with a token from before r |
| `ReclaimSteps.NobodyHolds` | src/kvspace.c:1046-1052 | at the moment an entry is taken nobody alive holds a token for its box |
| `ReclaimSteps.OnlyLeader` | src/kvspace.c:931-955 | while one live thread is in its round, no other live thread is, in its own process or another |
| `ReclaimSteps.WinsFromNobody` | src/kvspace.c:931-955 | a thread wins only from a free word or from a dead owner |
| `ReclaimSteps.LeadKeepsOneLeader` | src/kvspace.c:931-962 | every leader step keeps a single live thread in its round |
| `ReclaimSteps.AliveByRegistry` | src/kvspace.c:917-929 | for a claim that was open the registry scan says alive iff the process lives |
| `ReclaimSteps.OthersRest` | src/kvspace.c:389-419 | under the single-writer contract every other live client is at rest |
| `ReclaimSteps.WriteKeepsOwnPlace` | src/kvspace.c:389-440 | reserve, publish, stamp, commit and cancel act on the entry the writer holds, which stays its own |
| `ReclaimSteps.WriteKeepsReservations` | src/kvspace.c:389-440 | a reserved entry belongs to an operation under way or to a dead writer, through every writer step |
| `ReclaimSteps.LeadKeepsRingShape` | src/kvspace.c:1016-1069 | skipping, cancelling dead reservations and freeing keep the ring shape |
| `ReclaimSteps.LeadKeepsTokens` | src/kvspace.c:1016-1069 | a leader's step never takes a box from under a live token |
| `ReclaimSteps.ViewKeepsRegistered` | src/kvspace.c:1181-1207 | ack, quiesce and resolve keep tokens no older than what their process has acked, and none while quiet |
| `ReclaimSteps.RegistryKeepsRegistered` | src/kvspace.c:529-584 | taking, filling, leaving and reclaiming slots keeps each live client the owner of its slot |
| `ReclaimRun.SomeBoxIsFreed` | src/kvspace.c:389-1069 | the guards leave room for all this: some run from a new store binds a key, deletes it, retires the box and frees it |
| `ReclaimRun.AckedBoxIsFreed` | src/kvspace.c:389-1069 | a run in which a process that is not quiet holds the round back until its second ack, and the drain then frees |
| `ArtLookup.UncoveredStep` | src/kvspace.c:1638-1676 | between the slot of a node on the way and its end no other node stands, so the directory found is the first |

## Left out

- Failure of node allocation: `art_ins` shortens a prefix before the leaf chain can fail, so the tree is not unchanged then; the model allocates without failing.
- Mapping, growing and syncing the file regions, file layout, open and close, fork hooks, `/proc` parsing, futexes, timeouts, when the maintenance thread wakes up: operating-system plumbing. Liveness is an oracle, and giving up a round may happen at any time.
- The slot and block allocators: an allocator answers with an unused box of sufficient size. Node ids are consecutive here, while a large node takes several block ids there.
- XValue heads and attributes: a value is bytes with a total length; whether it is a pointer is a given predicate. What a head says (in order or not, a link, an extension) is a given function of the box or of its bytes. The value generation and its even and odd phases are not modelled.
- Widths: ids, offsets, generations and epochs do not wrap. A generation that comes back to the same 32-bit value, or an ack that is exactly 2^32 rounds old, is not modelled; `ReclaimSafety.DueIsLater` treats the one place where wrap-around is meant to work.
- Coord.ParseCoord: numbers are unbounded, where the source overflows a signed 64-bit integer, which is undefined in C; the order theorems apply to numbers that fit.
- ArtNodes.ArtNode.AddChild: asks that the byte be absent, where the source would add it to an N4, N16 or N48 a second time; the source calls it only for a byte that has no child.
- ArtNodes.ArtNode.RemoveChild: asks that the byte be present in an N256, where the source would lower the count regardless; the source calls it only for a child it has just found.
- Listing.ListScan: claims no order when a hidden coordinate, one with U+2025 inside its brackets, straddles two others, because what `qsort` then does with the visible ones is unspecified.
- Listing.Sort: insertion stands for the library's `qsort`, whose result on names that are not ordered is unspecified.
- Stores.Store.Set: has no exit for an insertion that fails, since node allocation succeeds; the ring and the allocator answer through parameters, and reservations are a count here, an entry of the ring only in the reclamation part. The tree theorems are about whole calls, not about a reader between two stores of a writer.
- Stores.Store.Deltree: which deletions the ring accepts is a given function of the key.
- ReclaimSafety.HeldBoxesStay: leaves of the tree are named by a number and replaced in one store; that growth carries a word to a new node is covered by the tree part only.
- The crash marker `garb_freeing` and the leak, round and byte counters: they are reported and nothing depends on them.
- `kvspaceShmViewResolveFrom` and `kvspaceShmResolvePrefix`: the depth they rest on goes stale on a split, so they do not equal a full lookup.
- `kvspaceShmCptree` and `kvspaceShmCplist`: they copy through List, which hides keys and merges `a` with `a/`.
- Partial writes, writes through a reference, and mounting and unmounting a directory: they lead to the same insertion and overwriting as Set.
- Watch and notify, the durable ABI wrappers, the language bindings, benchmarks, macOS branches, weak-memory effects.
