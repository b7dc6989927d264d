# Telora: verified models

Telora is a typed language with a compiler, a WebAssembly runtime with managed
memory, and a package store (`imos`). This project models the parts in which a
mistake would be silent and proves, for every input, every heap, every run and
every interleaving, that they do what they are for. Code that works by changing
things in place is modelled by classes and loops proved against specification
functions; the specifications have proofs of their own.

`dafny verify dfyconfig.toml` checks everything.

## What is modelled

| part of the system | modules | main results |
|---|---|---|
| heap, layout image, typed graph, unfolding | `HeapGraph`, `ReferenceWords` | what the exact layout scanner sees of a value or a resource, the tree it unfolds to, and `ReferenceWords.ScannerExact`: it finds exactly the words that the image calls references |
| copying collector | `CopyRelation`, `CopyMeaning`, `CollectorState`, `CopiedWords`, `ScanSteps`, `CopyCollector` | `CopyCollector.Collector.Collect`: every root and every ready demand means the same afterwards, to every depth, and every resource that is reached has one new slot in which it is what it was |
| mark and sweep | `MarkGraph`, `MarkRetention`, `RetainedMeaning`, `MarkSweep`, `DirectHeap`, `ResourceTables`, `GcRoots` | `MarkSweep.Collect`: exactly the blocks and the resource slots that something in use needs are left, and every root unfolds as before in whatever heap repeats what is left |
| creating an installation | `CreateState`, `CreateLog`, `CreateReducer` | `CreateReducer.RunCreate`: the outcome for every order in which effects end or fail, read off the events |
| the store shared by processes | `StoreProtocol`, `StoreKeeps`, `StoreProgress`, `StoreDamage`, `IntentDb` | `StoreProtocol.EveryRowPublished`, `SweepsOnlyGarbage`, `GcSettles`, `StoreKeeps.RequestKept`: safety over all interleavings with crashes; `StoreProgress`: a gc and a create can be finished; `StoreDamage.WholeUnlessTorn`: when a registered installation is whole |
| type layout | `FixedPoints`, `LayoutGraph`, `LayoutSize`, `LayoutMeaning`, `LayoutReading`, `LayoutBuilder` | `LayoutBuilder.Builder.Value` ends on every type graph and answers what the graph determines; `LayoutMeaning.EnumLaid`: payloads fit, and no smaller size would do |
| function-local scratch | `FrameScratch`, `FrameRuns`, `FrameContents` | over any run calls restore the stack and tail calls reuse their base; references keep their payload |
| persistent content | `Content` | appending disturbs no view; a chain stops exactly on overflow and costs at most five times its length |
| column maps | `ColumnMap` | published columns are sorted and are the finite map asked for |
| formatter engine | `DocLayout` | the stack machine equals a recursive layout, and `DocLayout.GroupChosen`: a group is flat exactly if it fits |
| regex contract | `RegexContract` | required names are exactly those of every match of the tree |
| SHA-256 | `Sha256` | streaming is invisible; the constants come from the primes |
| path normalisation | `PathNormal` | an in-place buffer refines a component stack, and leads to the same place |
| snapshot artifact | `SnapshotCodec` | encode and decode are inverses, both ways |

Two ideas carry the collectors. A *node* is a typed stretch of storage (a value,
its data, an object, a slot), and its *parts* are what the scanner finds in it. The
copying collector keeps a set of *links* from old nodes to new places, and a map
from old resource slots to new ones; a value inside a record and the record are
linked separately, so meaning is equality of unfoldings, not isomorphism of graphs.
The marker keeps a set of *seen* nodes, and an exact trace is one that is sound,
closed and anchored in blocks.

The layout recursion has no small measure. Its rank orders types by tier (plain
first), then by the plain rank or the number of inline-reachable types, then by
inhabitation rank; ranks come from the order in which the fixed points found their
members.

## Assumptions

- The system allocator answers fresh, disjoint blocks aligned to eight bytes, or
  fails; `try_reserve_exact` grants what was asked for. Where the source can fail
  for want of memory, the answer is a parameter.
- A heap is well typed for its layout image (`HeapGraph.Typed`); static objects
  refer to static objects only; a block never cuts an object in two. A value that is
  referenced on its own is always referenced with one layout entry: the source
  checks no more than that the sizes agree (crates/telora-wasm/rt/collect.rs:165-177).
  A slot number that is stored names a resource that is held: the source checks that
  it is a slot of the table (crates/telora-wasm/rt/gc_mark.rs:228).
- Comparators supplied by users are total orders (`ColumnMap.TotalOrder`) and may
  fail at any call.
- The death of a process releases its file locks. Every system call of the store is
  a step of its own, and a process may stop before any of them; a deletion removes
  entry by entry, so a process may die inside it and leave its key file, a part of
  its content, both or neither.
- Hash names of keys may collide: the naming function is arbitrary throughout.

Addresses and references in the heap models count 32-bit words, so offsets are a
quarter of those in the source; `DirectHeap` counts bytes.

## Model

Paths are relative to the root of the repository.

| member | source | states |
|---|---|---|
| `CopyCollector.Collector.Collect` | crates/telora-wasm/rt/collect.rs:330-375 | For every typed heap, every list of roots and every demand table: each relocated root, and each ready demand patched in place, unfolds in the new heap to the tree it unfolded to in the old one, to every depth and through cycles; equal references stay equal; demands that are not ready are untouched. Each resource that is reached has exactly one new slot, every new slot holds exactly one of them, and it holds what it held; feedback keeps its numbers; an owned resource is moved or released, once. Word by word: in the copy of every piece of storage each word that the image and the tables call a reference designates the copy of what it designated, and every other word is what it was (`CopiedWords.CopiedExactly`) |
| `CopyCollector.Collector.constructor` | crates/telora-wasm/rt/collect.rs:378-400 | A fresh collector holds static storage only, has forwarded nothing, and satisfies the collector's invariant |
| `CopyCollector.Collector.Finish` | crates/telora-wasm/rt/collect.rs:280-282 | The worklist ends (measure: what is not yet forwarded, then the bytes pending), nothing stays pending, and no recorded forwarding of a value, object or slot is ever changed |
| `CopyCollector.Collector.ForwardValue` | crates/telora-wasm/rt/collect.rs:160-191 | A static reference is kept; any other is forwarded to a copy recorded in the table before its content is scanned, and a second request gives the same copy |
| `CopyCollector.Collector.ForwardObject` | crates/telora-wasm/rt/collect.rs:192-246 | The same for objects kept by address: records, boxes, newtypes, environments and arrays, each (table, id) once |
| `CopyCollector.Collector.ForwardArray` | crates/telora-wasm/rt/collect.rs:211-240 | An array is copied trimmed to its length with its elements right behind the header, and is forwarded before the elements are scanned |
| `CopyCollector.Collector.ForwardSlot` | crates/telora-wasm/rt/collect.rs:245-273 | A resource gets the next slot of its table at its first visit and the same slot ever after; no other table and no earlier slot changes |
| `CopyCollector.Collector.CopyResource` | crates/telora-wasm/rt/collect.rs:250-271 | A resource in managed storage: payload copied, slot taken, payload queued, in one step that keeps the invariant |
| `CopyCollector.Collector.MoveResource` | crates/telora-wasm/rt/collect.rs:258-267 | An owned resource takes its new slot with the payload it had, and nothing is queued |
| `CopyCollector.Collector.KeepTable` | crates/telora-wasm/rt/collect.rs:365-371 | The assertion in the source holds: forwarding a whole feedback table in order gives every slot the number it had, whatever was forwarded before from other tables |
| `CopyCollector.Collector.ReleaseOwned` | crates/telora-wasm/rt/collect.rs:330-339 | Exactly the owned resources that were not forwarded are released, each once |
| `CopyCollector.Collector.MoveRoots` | crates/telora-wasm/rt/collect.rs:351-357 | Roots are relocated in order, equal references to equal addresses, and no resource is forwarded yet |
| `CopyCollector.Collector.MoveDemands` | crates/telora-wasm/rt/collect.rs:358-363 | Ready demands are relocated in place and all others stay as they are |
| `CopyCollector.Collector.CopyArray` | crates/telora-wasm/rt/collect.rs:212-237 | The new array storage was free before, repeats type, length and element words, and leaves all other storage alone |
| `CopyCollector.Collector.Reserve` | crates/telora-wasm/rt/collect.rs:138-140 | The allocator's block is outside static storage, was free, and touches no other word |
| `CopyCollector.Collector.CopyWords` | crates/telora-wasm/rt/collect.rs:141-154 | A copied block is fresh and repeats the old words one by one |
| `CopyCollector.Collector.EdgeValue` | crates/telora-wasm/rt/collect_trace.rs:51-54 | A reference slot ends up static or pointing at the copy of the value it designated |
| `CopyCollector.Collector.EdgeObject` | crates/telora-wasm/rt/collect_trace.rs:47-50 | An object slot ends up static or pointing at the copy of its object |
| `CopyCollector.Collector.EdgeSlot` | crates/telora-wasm-shared/src/trace.rs:179-181 | A resource slot ends up naming the new slot of its resource |
| `CopyCollector.Collector.EdgeStorage` | crates/telora-wasm/rt/collect_trace.rs:55-66 | Storage that belongs to one slot is copied along with it; without any, the slot is null |
| `CopyCollector.Collector.EdgeContent` | crates/telora-wasm/rt/collect_trace.rs:19-45 | A byte view ends up on the one trimmed copy of its raw storage, or on the static storage it had |
| `CopyCollector.Collector.CopyRaw` | crates/telora-wasm/rt/collect_trace.rs:24-43 | Raw storage is copied once, trimmed from its capacity to its published length |
| `CopyCollector.Collector.ScanValue` | crates/telora-wasm-shared/src/trace.rs:89-92 | The scan of a full value finishes it, keeps the invariant and queues no more than it consumed |
| `CopyCollector.Collector.ScanData` | crates/telora-wasm-shared/src/trace.rs:94-186 | Following inline enum and Dyn payloads in a loop finishes the data of every layout kind and terminates |
| `CopyCollector.Collector.ScanLeaf` | crates/telora-wasm-shared/src/trace.rs:95-178 | The returning arms of the scanner finish scalars, views and handles |
| `CopyCollector.Collector.ScanSlot` | crates/telora-wasm-shared/src/trace.rs:98-182 | Content, heap records, single and sliced arrays, boxed variants, boxed Dyn, functions, resources and newtypes: their one slot is redirected |
| `CopyCollector.Collector.ScanDict` | crates/telora-wasm-shared/src/trace.rs:131-134 | Both columns of a dict are redirected |
| `CopyCollector.Collector.QueueFields` | crates/telora-wasm-shared/src/trace.rs:101-114 | The fields of an inline aggregate are queued as values of their own, none twice |
| `CopyCollector.Collector.ScanFields` | crates/telora-wasm-shared/src/trace.rs:217-228 | Every field of a record payload is scanned |
| `CopyCollector.Collector.ScanElements` | crates/telora-wasm-shared/src/trace.rs:199-214 | Every element of an array payload is scanned |
| `CopyCollector.Collector.ScanCaptures` | crates/telora-wasm-shared/src/trace.rs:229-239 | Every capture of an environment is redirected under its closed type |
| `CopyCollector.Collector.ScanPacket` | crates/telora-wasm-shared/src/trace.rs:189-289 | The payload of a resource of any table is finished |
| `CopyCollector.Collector.ScanBlame` | crates/telora-wasm-shared/src/trace.rs:241-253 | The byte view of a blame is redirected |
| `CopyCollector.Collector.ScanDiagnostic` | crates/telora-wasm-shared/src/trace.rs:267-284 | The message of a diagnostic is redirected under the type in its last word, and its subjects are copied |
| `CopyCollector.Collector.ScanRow` | crates/telora-wasm-shared/src/trace.rs:230-266 | Operands of a format, cases of a test and the value of a debug event are redirected under the types stored beside them; hashes hold none |
| `CopyCollector.Collector.TraceObject` | crates/telora-wasm-shared/src/trace.rs:189-289 | One pending unit is finished, whatever its kind |
| `CopyCollector.RelocatedMeaning` | crates/telora-wasm/rt/collect.rs:160-191 | In any complete copy a relocated reference unfolds to the same tree to every depth |
| `CopyCollector.NoStaleReference` | crates/telora-wasm/rt/collect_trace.rs:12-71 | In a complete copy every slot is static, points at a forwarded target or at copied raw storage, or names a new slot of a resource table: never old storage |
| `ReferenceWords.ScannerExact` | crates/telora-wasm-shared/src/trace.rs:89-289 | For every piece of storage of every layout kind, object table and resource table: the slots that the scanner comes to, going down from part to part, are exactly the words that the image and the tables call references, read off without the scanner |
| `ReferenceWords.RecordMembers` | crates/telora-wasm-shared/src/trace.rs:218-229 | A record object has one part and one member for each field of its layout, at the offset and of the type of the field, and no other |
| `ReferenceWords.NewtypeMember` | crates/telora-wasm-shared/src/trace.rs:217-217 | A newtype object holds one full value of the type it wraps |
| `ReferenceWords.FormatMembers` | crates/telora-wasm-shared/src/trace.rs:254-265 | A literal format holds no reference, the next three operations one, all others two, each under the type stored for it |
| `ReferenceWords.RowMembers` | crates/telora-wasm-shared/src/trace.rs:230-266 | A test holds one reference for each of its cases, a debug event one, under the types stored beside them |
| `CopiedWords.CopiedExactly` | crates/telora-wasm/rt/collect_trace.rs:12-71 | In a complete copy every word that the image calls a reference, in any object, value or payload, designates the copy of its old target (or the same static storage, or the same bytes, or the resource that took the new slot), and every other word is the old one |
| `CopyMeaning.SameNode` | crates/telora-wasm-shared/src/trace.rs:89-289 | A linked node and its copy unfold to equal trees at every depth: the induction behind meaning preservation, for every node kind |
| `CopyMeaning.SameReference` | crates/telora-wasm/rt/collect_trace.rs:47-54 | A redirected slot unfolds to what it designated before |
| `CopyMeaning.SameContent` | crates/telora-wasm/rt/collect_trace.rs:19-45 | A redirected byte view shows the same bytes, although its storage was trimmed |
| `CopyMeaning.SameInline` | crates/telora-wasm-shared/src/trace.rs:101-114 | Inline records unfold equally, field by field |
| `CopyMeaning.SameArray` | crates/telora-wasm-shared/src/trace.rs:115-130 | Empty, single and sliced arrays unfold equally, bounds included |
| `CopyMeaning.SameDict` | crates/telora-wasm-shared/src/trace.rs:131-134 | Dicts unfold equally, columns and length |
| `CopyMeaning.SameEnum` | crates/telora-wasm-shared/src/trace.rs:135-149 | Nullary, boxed and inline variants unfold equally |
| `CopyMeaning.SameDyn` | crates/telora-wasm-shared/src/trace.rs:150-163 | Boxed and inline Dyn payloads unfold equally |
| `CopyMeaning.SameFunction` | crates/telora-wasm-shared/src/trace.rs:164-178 | Closures unfold equally, with and without captures |
| `CopyMeaning.SameSlot` | crates/telora-wasm/rt/collect.rs:245-273 | A resource slot unfolds to the same resource after its number has changed |
| `CopyMeaning.SamePacket` | crates/telora-wasm-shared/src/trace.rs:189-289 | The payload of a resource unfolds equally: its own words, and what its references and views show |
| `CopyMeaning.KeptParts` | crates/telora-wasm-shared/src/trace.rs:230-284 | Where a payload says its references are, its copy says so too |
| `CopyMeaning.SameBelongings` | crates/telora-wasm/rt/collect_trace.rs:55-66 | Storage that belongs to one slot unfolds equally |
| `CopyRelation.ExpandInv` | crates/telora-wasm-shared/src/trace.rs:94-186 | Scanning a block hands each of its words either to the block itself or to exactly one part, and keeps the copy invariant |
| `CopyRelation.RedirectInv` | crates/telora-wasm/rt/collect_trace.rs:47-54 | Overwriting a slot that waits disturbs no other link, finished or waiting |
| `CopyRelation.AdmitInv` | crates/telora-wasm/rt/collect.rs:141-154 | A freshly copied block may be linked at any time |
| `CopyRelation.AdmitArrayInv` | crates/telora-wasm/rt/collect.rs:211-240 | A trimmed array copy may be linked with its header finished and its elements waiting |
| `CopyRelation.AdmitRawInv` | crates/telora-wasm/rt/collect_trace.rs:24-43 | A trimmed raw copy may be recorded |
| `CopyRelation.AdmitSlotInv` | crates/telora-wasm/rt/collect.rs:250-267 | A resource may take the next slot of its table at any time: forwarding stays one to one and onto the new slots |
| `CollectorState.ForwardedValueOk` | crates/telora-wasm/rt/collect.rs:183-189 | Copy, table entry and pending entry of a value together keep the collector's invariant and shrink what is left to forward |
| `CollectorState.ForwardedObjectOk` | crates/telora-wasm/rt/collect.rs:241-246 | The same for records, boxes and newtypes, whose payload waits behind an already finished header |
| `CollectorState.ForwardedEnvironmentOk` | crates/telora-wasm/rt/collect.rs:204-210 | The same for environments, which may be cyclic |
| `CollectorState.ForwardedArrayOk` | crates/telora-wasm/rt/collect.rs:211-240 | The same for arrays, including empty elements |
| `CollectorState.ForwardedSlotOk` | crates/telora-wasm/rt/collect.rs:250-271 | The same for resources, whose payload is copied before its slot is filled |
| `CollectorState.ScanOk` | crates/telora-wasm-shared/src/trace.rs:94-289 | Parts of a scanned block were waiting nowhere, so no block is scanned twice |
| `MarkSweep.Collect` | crates/telora-wasm/rt/gc_runtime.rs:31-41 | After a collection the surviving blocks are exactly those in which something reachable from the roots, the demands and the feedback lies (or a storage root), unchanged; every other block is released exactly once and no survivor is. In every resource table exactly the slots that are reached are held, under their numbers and with their contents; their payloads and the buffers of the tables survive. The regex resources that are freed are exactly the held ones that nothing reaches, each once. Said without the trace: a block is left exactly if a root or something in use needs a word of it, where use is read off the roots, the image and the tables; and every heap that repeats what is left unfolds every published value, every reference of a published buffer, every object under construction, every ready demand, every failed report and all feedback as before, to every depth |
| `MarkSweep.Mark.Trace` | crates/telora-wasm/rt/gc_mark.rs:25-75 | The seen nodes are exactly the reachable ones, the recorded slots exactly those that a root or something reachable names, and a block holds a recorded address exactly if it is to be retained; the worklist ends |
| `MarkSweep.Mark.constructor` | crates/telora-wasm/rt/gc_mark.rs:27-34 | A fresh mark satisfies the invariant with nothing open and nothing pending |
| `MarkSweep.Mark.Span` | crates/telora-wasm/rt/gc_mark.rs:77-81 | A storage root is recorded |
| `MarkSweep.Mark.MarkRoot` | crates/telora-wasm/rt/gc_mark.rs:83-132 | Value, storage, reference-buffer and object roots: everything the root says is seen or recorded |
| `MarkSweep.Mark.MarkReferences` | crates/telora-wasm/rt/gc_mark.rs:122-129 | Every initialised reference of a buffer is visited |
| `MarkSweep.Mark.QueueItem` | crates/telora-wasm/rt/gc_mark.rs:112-120 | Storage that a root holds is seen and waits to be scanned |
| `MarkSweep.Mark.MarkDemand` | crates/telora-wasm/rt/gc_mark.rs:38-51 | A ready demand's value is visited; the packet of a failed one is recorded, and queued as a diagnostic |
| `MarkSweep.Mark.MarkValue` | crates/telora-wasm/rt/gc_mark.rs:193-198 | A value is visited once per type, is recorded before it is scanned, and null is ignored |
| `MarkSweep.Mark.MarkObject` | crates/telora-wasm/rt/gc_mark.rs:200-236 | An object's header and its payload, unless empty, are recorded, and the payload is queued with its stored type |
| `MarkSweep.Mark.MarkSlot` | crates/telora-wasm/rt/gc_mark.rs:226-235 | A resource is recorded by table and slot; unless it is owned elsewhere its payload is recorded and queued, once |
| `MarkSweep.Mark.MarkTable` | crates/telora-wasm/rt/gc_mark.rs:56-64 | The buffer of a table is recorded, and of a feedback table every slot is |
| `MarkSweep.Mark.MarkRoots` | crates/telora-wasm/rt/gc_mark.rs:35-64 | Everything a trace starts from is seen or recorded before the worklist runs |
| `MarkSweep.Mark.EdgeValue` | crates/telora-wasm/rt/gc_mark.rs:261-264 | The designated value is seen afterwards |
| `MarkSweep.Mark.EdgeObject` | crates/telora-wasm/rt/gc_mark.rs:265-265 | The designated object is seen afterwards |
| `MarkSweep.Mark.EdgeSlot` | crates/telora-wasm-shared/src/trace.rs:179-181 | The named slot is recorded and its payload seen afterwards |
| `MarkSweep.Mark.EdgeStorage` | crates/telora-wasm/rt/gc_mark.rs:266-272 | Storage that belongs to a slot is recorded |
| `MarkSweep.Mark.EdgeContent` | crates/telora-wasm/rt/gc_mark.rs:256-260 | The raw storage behind a view is recorded, also through an interior view |
| `MarkSweep.Mark.ScanValue` | crates/telora-wasm-shared/src/trace.rs:89-92 | All successors of a full value are seen afterwards |
| `MarkSweep.Mark.ScanData` | crates/telora-wasm-shared/src/trace.rs:94-186 | All successors of the data of any layout kind are seen afterwards |
| `MarkSweep.Mark.ScanInline` | crates/telora-wasm-shared/src/trace.rs:101-114 | All fields of an inline aggregate are visited |
| `MarkSweep.Mark.ScanDict` | crates/telora-wasm-shared/src/trace.rs:131-134 | Both columns are visited |
| `MarkSweep.Mark.ScanSlot` | crates/telora-wasm-shared/src/trace.rs:98-182 | The one slot of a view, handle or resource is visited |
| `MarkSweep.Mark.ScanFields` | crates/telora-wasm-shared/src/trace.rs:217-228 | Every field of a record payload is visited |
| `MarkSweep.Mark.ScanElements` | crates/telora-wasm-shared/src/trace.rs:199-214 | Every element of an array payload is visited |
| `MarkSweep.Mark.ScanCaptures` | crates/telora-wasm-shared/src/trace.rs:229-239 | Every capture of an environment is visited |
| `MarkSweep.Mark.ScanPacket` | crates/telora-wasm-shared/src/trace.rs:189-289 | All successors of the payload of a resource of any table are seen afterwards |
| `MarkSweep.Mark.ScanBlame` | crates/telora-wasm-shared/src/trace.rs:241-253 | The storage behind the view of a blame is recorded |
| `MarkSweep.Mark.ScanDiagnostic` | crates/telora-wasm-shared/src/trace.rs:267-284 | The message of a diagnostic is visited and the storage of its subjects recorded |
| `MarkSweep.Mark.ScanRow` | crates/telora-wasm-shared/src/trace.rs:230-266 | Operands of a format, cases of a test and the value of a debug event are visited |
| `MarkSweep.Mark.TraceItem` | crates/telora-wasm/rt/gc_mark.rs:65-72 | One pending item is finished |
| `MarkSweep.HeldLive` | crates/telora-wasm/rt/heap.rs:337-355 | A dynamic block is marked by a recorded address exactly if something reachable lies in it |
| `MarkSweep.SweepTables` | crates/telora-wasm/rt/gc_runtime.rs:34-36 | Swept with what the trace recorded, every table holds exactly the slots that are reached, and exactly the held regex resources that nothing reaches are freed |
| `MarkSweep.PayloadJustified` | crates/telora-wasm/rt/gc_mark.rs:226-233 | The payload behind a slot that is reached is in use, so its block is retained |
| `MarkRetention.GivenExactly` | crates/telora-wasm/rt/gc_mark.rs:35-64 | A trace starts from exactly what the roots give: published values, initialised references, payloads of objects and resources, ready values, reports of failed demands, and all feedback |
| `MarkRetention.NamedExactly` | crates/telora-wasm/rt/gc_mark.rs:77-85 | The storage retained as it is, is what a published root, a failed demand or a table buffer names by address |
| `MarkRetention.RetainedExactly` | crates/telora-wasm/rt/gc_mark.rs:25-75 | A block is retained if and only if a root names an address in it, or a value, object, array storage or raw bytes in use lie in it; what is in use is said by the references of the image alone |
| `MarkRetention.SlotExactly` | crates/telora-wasm/rt/gc_mark.rs:200-235 | A slot of a resource table is kept if and only if it is feedback or a reference in something in use names it |
| `MarkRetention.ReachedUsed` | crates/telora-wasm/rt/gc_mark.rs:65-72 | Whatever the trace comes to is inside something in use |
| `RetainedMeaning.RetentionLaw` | crates/telora-wasm/rt/gc_runtime.rs:31-41 | The law of retention: in any heap that agrees with the old one on the words and raw storage outside the released blocks and on the held slots, whatever the roots give unfolds to the same tree, to every depth |
| `RetainedMeaning.ReachableSame` | crates/telora-wasm-shared/src/trace.rs:89-289 | Everything reachable unfolds as before in such a heap, for every layout kind, object and resource |
| `MarkGraph.TraceDone` | crates/telora-wasm/rt/gc_mark.rs:25-75 | An empty worklist means: seen is reachable, and recorded addresses hit exactly the blocks to retain |
| `MarkGraph.SeenAll` | crates/telora-wasm/rt/gc_mark.rs:65-72 | Soundness and completeness of the worklist: seen if and only if reachable |
| `MarkGraph.SlotsAll` | crates/telora-wasm/rt/gc_mark.rs:200-235 | A slot is recorded if and only if it is a root or something reachable names it |
| `MarkGraph.RetainedHit` | crates/telora-wasm/rt/gc_mark.rs:77-81 | A block holds a recorded address if and only if a reachable node, raw storage or root lies in it |
| `MarkGraph.ClosedHoldsAll` | crates/telora-wasm/rt/gc_mark.rs:65-72 | Any set that holds the roots and is closed under layout edges holds everything reachable, to any number of steps |
| `MarkGraph.ObjectVisitedOk` | crates/telora-wasm/rt/gc_mark.rs:206-225 | Recording header and payload is enough even where they lie in different blocks |
| `MarkGraph.ValueVisitedOk` | crates/telora-wasm/rt/gc_mark.rs:193-198 | A first visit under a type keeps the invariant and shrinks what is left |
| `MarkGraph.SlotVisitedOk` | crates/telora-wasm/rt/gc_mark.rs:226-235 | A first visit of a resource keeps the invariant and shrinks what is left |
| `DirectHeap.Heap.constructor` | crates/telora-wasm-shared/src/direct_heap.rs:81-91 | An empty registry is consistent with its limit |
| `DirectHeap.Heap.SetLimit` | crates/telora-wasm-shared/src/direct_heap.rs:102-113 | A limit below storage plus registry metadata is refused and changes nothing |
| `DirectHeap.Heap.ReserveRegistration` | crates/telora-wasm-shared/src/direct_heap.rs:146-178 | For entries of any size: room for one more is made within the budget, amortised or exact, or nothing changes; with a willing allocator it fails only if not even the exact size fits |
| `DirectHeap.Heap.Allocate` | crates/telora-wasm-shared/src/direct_heap.rs:115-144 | One entry is appended with its padded size and the totals stay the sums over live entries within the limit; a failure leaves entries and totals as they were. A padded size above isize::MAX is refused; with a willing allocator nothing else fails but what exceeds the limit |
| `DirectHeap.Heap.PartitionPoint` | crates/telora-wasm-shared/src/direct_heap.rs:186-190 | Binary search splits the entries at an address |
| `DirectHeap.Heap.Index` | crates/telora-wasm-shared/src/direct_heap.rs:180-197 | Sorting on demand keeps all entries; an interior address finds an entry that holds it, and is rejected exactly if none does |
| `DirectHeap.Heap.Lookup` | crates/telora-wasm-shared/src/direct_heap.rs:199-203 | The block found is the only one that holds the address |
| `DirectHeap.Heap.Mark` | crates/telora-wasm-shared/src/direct_heap.rs:205-213 | Exactly the owner's mark is set; the answer tells whether it was set for the first time |
| `DirectHeap.Heap.Sweep` | crates/telora-wasm-shared/src/direct_heap.rs:217-231 | What stays and what is released, in order, with totals recomputed to the sums over survivors |
| `DirectHeap.Heap.Reclaim` | crates/telora-wasm/rt/heap.rs:337-355 | Marking all dynamic references and sweeping keeps exactly the blocks they point into and releases every other block once |
| `DirectHeap.SweepExact` | crates/telora-wasm-shared/src/direct_heap.rs:217-231 | A sweep keeps exactly the marked blocks, unmarked, and releases every other one exactly once |
| `DirectHeap.SortedCorrect` | crates/telora-wasm-shared/src/direct_heap.rs:180-186 | Sorting a registry of disjoint blocks gives ascending addresses and the same totals |
| `DirectHeap.OneHolder` | crates/telora-wasm-shared/src/direct_heap.rs:180-203 | An address lies in at most one live block |
| `ResourceTables.Table.Push` | crates/telora-wasm/rt/tables.rs:42-75 | A resource takes the first empty slot; no held slot changes its id or content; the runtime stops only at the capacity bound |
| `ResourceTables.Table.Sweep` | crates/telora-wasm/rt/tables.rs:77-111 | Exactly the live held slots are left under their ids, no empty slot ends the table, and the slots whose resource is given up are exactly the held ones that are not live, each once |
| `GcRoots.Roots.constructor` | crates/telora-wasm-shared/src/gc_roots.rs:82-91 | Empty roots are consistent |
| `GcRoots.Roots.Enter` | crates/telora-wasm-shared/src/gc_roots.rs:98-121 | A frame of empty slots is stacked under a token never handed out before, within the limit; a failure changes nothing |
| `GcRoots.Roots.Set` | crates/telora-wasm-shared/src/gc_roots.rs:123-138 | Only the newest frame's token may write, only inside the frame; a null root clears the slot |
| `GcRoots.Roots.Leave` | crates/telora-wasm-shared/src/gc_roots.rs:142-147 | The newest frame goes with its slots and its token never comes back |
| `GcRoots.Roots.Tail` | crates/telora-wasm-shared/src/gc_roots.rs:151-175 | The newest frame is replaced by one holding the transfer under a new token; the old token never comes back; a failure changes nothing |
| `GcRoots.Roots.PinRoot` | crates/telora-wasm-shared/src/gc_roots.rs:177-206 | The new handle resolves to its root and every handle that resolved still does |
| `GcRoots.Roots.Get` | crates/telora-wasm-shared/src/gc_roots.rs:208-214 | Succeeds exactly for handles that resolve |
| `GcRoots.Roots.Unpin` | crates/telora-wasm-shared/src/gc_roots.rs:216-221 | The handle is dead from now on, its slot is free, every other handle still resolves |
| `GcRoots.Roots.RewritePins` | crates/telora-wasm-shared/src/gc_roots.rs:224-230 | Relocation changes pinned roots, never which handles resolve |
| `GcRoots.Roots.InvalidatePins` | crates/telora-wasm-shared/src/gc_roots.rs:232-238 | No handle handed out so far resolves any more; the free list is every pin once |
| `GcRoots.Roots.Perform` | crates/telora-wasm-shared/src/gc_roots.rs:93-238 | Over any sequence of operations, relocation included: frames tile the slots, the free list is exactly the empty pins, the limit holds, and no token or handle that lost its meaning ever regains it |
| `GcRoots.FramesApart` | crates/telora-wasm-shared/src/gc_roots.rs:98-121 | Frames occupy disjoint stretches of the slot array |
| `CreateReducer.RunCreate` | crates/imos/src/store.rs:275-317 | For every order in which effects end or fail and progress arrives: with nothing running the result is known; what was done is a prefix of the one schedule the plan allows. The log of events taken in, part of the script, decides: while progress is in order the result is what the first event that decides anything says; otherwise it is that or a failure. An Ok result means that the log reports every download, the items one by one in plan order, the publication and the registration, or, if the acquisition reported a cached installation, the registration and nothing else |
| `CreateReducer.Create.constructor` | crates/imos/src/store.rs:532-539 | Both ways of submitting a create start its first effect |
| `CreateReducer.Create.Deliver` | crates/imos/src/store.rs:530-700 | An event of a running effect keeps the invariant; the result, the successes recorded, the plan, the lock, whether it was cached, the downloads, the plan file and the temporary directory become what the event says of them and nothing else; and the progress that the event gives rise to is told |
| `CreateReducer.Create.Notify` | crates/imos/src/store.rs:668-681 | Progress and observed statuses change the outcome by failing it and in no other way, in order not even so; what was told is handed on, or waits while an effect of its target runs |
| `CreateReducer.Create.Enqueue` | crates/imos/src/store.rs:703-716 | Progress work only adds status effects, at most one per target, and may only fail the run; a free target shows the first that has something to show |
| `CreateReducer.Create.Pump` | crates/imos/src/store.rs:718-754 | Waiting progress of a free target is handed on up to the first that has something to show, and that is shown; everything behind it goes on waiting; a busy target changes nothing; a failure inside a drain recurses only once |
| `CreateReducer.Create.FailCreate` | crates/imos/src/store.rs:756-774 | The first failure is the result, and is told if the plan is known; a later one changes nothing |
| `CreateReducer.Create.AdvanceItems` | crates/imos/src/store.rs:776-813 | The next item starts as soon as its download is there and no item runs; after the last one publication starts, once |
| `CreateReducer.Create.StartDownloads` | crates/imos/src/store.rs:602-608 | Each download key gets exactly one effect |
| `CreateReducer.Create.OnStarting` | crates/imos/src/store.rs:532-551 | Prepare, lock and persist hand over one to the next |
| `CreateReducer.Create.OnInstallAcquired` | crates/imos/src/store.rs:554-610 | What the event says decides: an installation it reports as cached is registered, any other is installed, each after its progress was told |
| `CreateReducer.Create.RegisterCached` | crates/imos/src/store.rs:564-587 | A cached installation goes straight to registration, and is told of unless the lock was waited for |
| `CreateReducer.Create.StartInstalling` | crates/imos/src/store.rs:589-610 | An installation is told of, and starts its downloads and its temporary directory |
| `CreateReducer.Create.OnInstallPrepared` | crates/imos/src/store.rs:611-617 | The temporary directory is the one that was made; one that arrives after a failure is ignored |
| `CreateReducer.Create.OnDownloadFinished` | crates/imos/src/store.rs:618-622 | A download moves its key from pending to completed, or fails the run; after a failure it is ignored |
| `CreateReducer.Create.OnItemFinished` | crates/imos/src/store.rs:623-636 | Only the running item of a run without result counts; success goes on with the next item, failure stops for good |
| `CreateReducer.Create.OnPublished` | crates/imos/src/store.rs:637-662 | Publication is told and leads to registration whatever the result is by then |
| `CreateReducer.Create.OnRegistered` | crates/imos/src/store.rs:663-667 | The registration's outcome is the result unless there is one |
| `CreateReducer.Create.OnStatusDone` | crates/imos/src/store.rs:682-698 | A finished status effect frees its target and hands on what waits |
| `CreateLog.WholeLog` | crates/imos/src/store.rs:275-317 | What a run remembers at its end, read off the events alone: the result is what they decide, and a success was carried out |
| `CreateLog.DeliveredLog` | crates/imos/src/store.rs:530-700 | One more event keeps that so, whatever it is |
| `CreateLog.ScheduleDone` | crates/imos/src/store.rs:776-813 | The successes of the one schedule are: items in plan order, publication, registration; for a cached installation the registration alone |
| `CreateLog.CalmNext` | crates/imos/src/store.rs:718-754 | Progress in which no key goes on before it started is reduced without a failure and stays so |
| `CreateLog.NothingLost` | crates/imos/src/store.rs:718-754 | Of what waits for a target nothing is lost: what is skipped belongs to a key that has ended, the next is shown as observed or as the status of its key, and all behind it goes on waiting |
| `CreateLog.StatusMade` | crates/imos/src/progress.rs:120-267 | Progress changes the status of its own key alone, to the phase that the event means, and a key that ended is opened again only by a start, a resumption or a wait |
| `CreateState.NoDeadlock` | crates/imos/src/store.rs:289-311 | In any state the invariant allows, nothing running implies a result |
| `CreateState.OnSchedule` | crates/imos/src/store.rs:776-813 | What was done is always a prefix of: items one at a time in plan order, publish, register |
| `CreateState.OkIsComplete` | crates/imos/src/store.rs:637-667 | An Ok result means the whole schedule was carried out and names the plan's root |
| `CreateState.OneItem` | crates/imos/src/store.rs:776-813 | At most one item runs, the one after all finished items, on its own completed download and the temporary directory |
| `CreateState.EffectArguments` | crates/imos/src/store.rs:776-813 | Downloads are of items of the plan; what is published is the temporary directory, to the root named after the plan key; what is registered is this plan file and plan with that root |
| `CreateState.PublishedOnce` | crates/imos/src/store.rs:776-790 | Publication and registration start at most once, publication only after all items and never for a cached installation |
| `CreateState.MurmurInv` | crates/imos/src/store.rs:703-774 | Progress work on its own keeps every state consistent |
| `StoreProtocol.StepInv` | crates/imos/src/store.rs:319-493 | Every step of every create, remove and gc process, and the death of any process at any point of a deletion, keeps the store's invariant |
| `StoreProtocol.RunInv` | crates/imos/src/store.rs:319-493 | So does every interleaving of any number of processes |
| `StoreProtocol.Reached` | crates/imos/src/store.rs:208-238 | Every state a newly opened store can reach satisfies the invariant |
| `StoreProtocol.EveryRowPublished` | crates/imos/src/store.rs:412-462 | After any interleaving with crashes, every request row's plan key has an installation of exactly that key: its key file and its root are there |
| `StoreDamage.WholeUnlessTorn` | crates/imos/src/store.rs:1207-1233 | In every state that can be reached: the installation of a request row is whole if and only if, since it was last published, no gc died inside its root and left the root there |
| `StoreDamage.DamagedRow` | crates/imos/src/store.rs:1207-1233 | For every request and plan key there is a run after which the row's installation is half deleted: create, remove, a gc that dies inside the deletion, create again |
| `StoreDamage.DownloadsWhole` | crates/imos/src/store.rs:1024-1070 | Downloads are not affected: what a create takes as a finished download has its key and its data |
| `StoreProtocol.SweepsOnlyGarbage` | crates/imos/src/store.rs:464-526 | Gc never deletes an installation or download that a row still reaches, even where key hashes collide, nor a temporary directory in use |
| `StoreProtocol.GcSettles` | crates/imos/src/store.rs:464-493 | When a gc has finished, rows and request files are the same set, every file had at least two links when it was looked at, every object left is needed by some row, only plans of rows have relations, and nothing temporary is left |
| `StoreProtocol.PublishesFresh` | crates/imos/src/store.rs:863-908 | Whoever publishes finds no object under the name, has every download of the plan published, and is alone at work on the name |
| `StoreKeeps.RequestKept` | crates/imos/src/store.rs:464-493 | Whatever ran before: through every run in which its file keeps two links and nobody removes it, a request keeps its row, its file and a published installation of its plan |
| `StoreKeeps.RowLost` | crates/imos/src/store.rs:469-486 | A step that takes a row is a remove of that request, or a gc that finds its file gone or with a single link |
| `StoreKeeps.FileLost` | crates/imos/src/store.rs:475-486 | A step that takes a request file is a remove of it, or a gc that has condemned it, and it has no row any more |
| `StoreKeeps.Condemned` | crates/imos/src/store.rs:475-486 | A gc condemns a file only if it has a single link or had no row when the gc began |
| `StoreKeeps.DownloadKept` | crates/imos/src/store.rs:487-517 | As long as some row has the plan key, the relations of the plan stay, and a download that is there stays whole |
| `StoreKeeps.RowRecorded` | crates/imos/src/db.rs:46-66 | Adding a row relates its plan to every download of it, so each is live |
| `StoreKeeps.AddsChecked` | crates/imos/src/store.rs:412-462 | A row is added only by a create whose last check found its plan file unmodified, in the store, and with as many links as it had when it was prepared, two at least |
| `StoreKeeps.Recorded` | crates/imos/src/store.rs:349-376 | A create starts exactly on a file that the store has or that has one link, and knows of it what was true then |
| `StoreKeeps.RequestFixed` | crates/imos/src/store.rs:349-462 | What a create knows of its plan file no step of anybody changes |
| `StoreKeeps.NoRebinding` | crates/imos/src/store.rs:449-462 | Reading the row and then writing it binds no request to another plan |
| `StoreKeeps.FetchedOnce` | crates/imos/src/store.rs:1002-1070 | In every interleaving a download is fetched by one process at a time |
| `StoreProgress.GcFinishes` | crates/imos/src/store.rs:464-493 | Wherever a gc stands, it can be carried to its end by steps of its own |
| `StoreProgress.CreateFinishes` | crates/imos/src/store.rs:412-462 | A create on its own, with its downloads and installation absent or whole and no row for another plan, can be carried to a row, a file and a published installation |
| `StoreProgress.RemoveDone` | crates/imos/src/store.rs:319-341 | A remove takes the row, then the file with one link of it, and nothing else |
| `StoreProgress.LinkDone` | crates/imos/src/store.rs:412-429 | Linking a request adds its file, with one more link if it was not there |
| `IntentDb.Database.AddRequest` | crates/imos/src/db.rs:46-66 | The request is bound, its plan is related to all its downloads, and all of these are live afterwards |
| `IntentDb.Database.RemoveRequest` | crates/imos/src/db.rs:68-90 | The request is unbound and its plan answered; a plan is live afterwards exactly if another request is bound to it, so the answered one stops being live unless it is shared, and no other does |
| `IntentDb.Database.RemoveUnreferencedDownloadRelations` | crates/imos/src/db.rs:105-117 | Exactly the relations of bound plans are left, and no download stops being live |
| `IntentDb.ReferencedKeepsDownloads` | crates/imos/src/db.rs:92-117 | Forgetting relations of unbound plans frees no download |
| `IntentDb.LiveAfterRemoval` | crates/imos/src/db.rs:68-90 | After a removal a plan is live exactly if another request is bound to it |
| `IntentDb.Store.ScanRows` | crates/imos/src/store.rs:469-474 | Rows without a request file are deleted, no other |
| `IntentDb.Store.ScanFiles` | crates/imos/src/store.rs:475-486 | Files nobody links to or knows are deleted with their rows, no other |
| `IntentDb.Store.SweepKeyed` | crates/imos/src/store.rs:503-517 | Entries that survive are exactly those named after a live key |
| `IntentDb.Store.GcLocked` | crates/imos/src/store.rs:464-493 | One collection on its own: a request is left exactly if it has a row, a file and a link from elsewhere, rows equal files, installations and downloads are exactly the live ones, temporaries are gone |
| `FixedPoints.Saturate` | crates/telora-core/src/candidate_layout.rs:379-408 | Passing over all types until none joins ends, with the least set closed under any monotone rule: inside every closed set, each member justified by earlier ones |
| `FixedPoints.LeastUnique` | crates/telora-core/src/candidate_layout.rs:377-408 | There is one least fixed point, whatever order members are found in |
| `FixedPoints.Reaches` | crates/telora-core/src/candidate_layout.rs:747-760 | Depth-first search answers exactly whether there is a path |
| `LayoutGraph.InhabitedExactly` | crates/telora-core/src/candidate_layout.rs:377-408 | A type is in the inhabited set if and only if a finite value of it can be built |
| `LayoutGraph.TemplatesUnique` | crates/telora-core/src/candidate_layout.rs:311-357 | The set of templates does not depend on visiting order |
| `LayoutGraph.FactsUnique` | crates/telora-core/src/candidate_layout.rs:311-464 | Templates, inhabited types, plain types and boxed variants are determined by the type graph alone |
| `LayoutGraph.PlainNotIndirect` | crates/telora-core/src/candidate_layout.rs:434-464 | A plain type has no boxed variant |
| `LayoutGraph.PlainExpansion` | crates/telora-core/src/candidate_layout.rs:434-464 | Everything in the inline expansion of a plain type, to any depth, is plain, has no boxed variant and is no reference |
| `LayoutSize.ShapeExact` | crates/telora-core/src/candidate_layout.rs:194-218 | A shape covers header and data, wastes less than eight bytes, is aligned, and is refused exactly when 64 bits overflow |
| `LayoutSize.FieldLess` | crates/telora-core/src/candidate_layout.rs:520-525 | A field of a plain aggregate comes before it in the termination order |
| `LayoutSize.PayloadLess` | crates/telora-core/src/candidate_layout.rs:610-629 | An unboxed payload comes before its enum: plain rank, or a smaller set of inline-reachable types |
| `LayoutSize.UncheckedLess` | crates/telora-core/src/candidate_layout.rs:569-569 | The wrapped type comes before its wrapper: also by inhabitation rank, on a cycle of wrappers |
| `LayoutSize.Outcome` | crates/telora-core/src/candidate_layout.rs:492-643 | A layout is known exactly for inhabited types; errors are overflow, an unknown native or a missing rule, never an inline field or payload without a layout |
| `LayoutSize.FieldsInOrder` | crates/telora-core/src/candidate_layout.rs:519-525 | Inline fields follow the marker one behind the other without overlap |
| `LayoutSize.FieldsFit` | crates/telora-core/src/candidate_layout.rs:519-542 | Every inline field lies inside the computed value size |
| `LayoutSize.PayloadsFit` | crates/telora-core/src/candidate_layout.rs:608-637 | Every live enum payload lies behind the tag and inside the computed value size; how much a payload takes is said by `LayoutMeaning.PayloadSized` |
| `LayoutSize.OrderIndependent` | crates/telora-core/src/candidate_layout.rs:492-643 | The layout of a type does not depend on the order types are visited in |
| `LayoutMeaning.EnumLaid` | crates/telora-core/src/candidate_layout.rs:608-637 | Read off the type graph: behind header and tag every live payload fits, four bytes for one that leads back to its own enum and the whole value of any other, and no smaller multiple of eight does |
| `LayoutMeaning.PayloadSized` | crates/telora-core/src/candidate_layout.rs:610-629 | What a live payload takes is determined: a reference if its type leads back along inline edges, else the whole value of its type |
| `LayoutMeaning.AggregateLaid` | crates/telora-core/src/candidate_layout.rs:519-542 | An inline aggregate takes header, marker and the whole values of its fields, padded to eight bytes and no more |
| `LayoutMeaning.UncheckedLaid` | crates/telora-core/src/candidate_layout.rs:569-569 | A checked value takes what its argument takes |
| `LayoutMeaning.TemplateExactly` | crates/telora-core/src/candidate_layout.rs:311-357 | A type is a template if and only if members lead from it to a parameter of its surroundings, free or bound by a contract outside of it |
| `LayoutMeaning.PlainExactly` | crates/telora-core/src/candidate_layout.rs:434-464 | A type is plain if and only if its inline expansion is finite and holds nothing that is represented by a reference |
| `LayoutMeaning.FixedLaid` | crates/telora-core/src/candidate_layout.rs:492-517 | Any other type with a layout takes the parts that its encoding lists, padded to eight bytes, behind the header |
| `LayoutReading.SlotsInside` | crates/telora-wasm-shared/src/trace.rs:94-186 | Each slot that the scanner may find in a value that is not stored inline lies inside the data that was calculated for it, and leads to the table of its layout, whatever the words are |
| `LayoutReading.DynInside` | crates/telora-wasm-shared/src/trace.rs:152-164 | A `Dyn` holds its payload behind two words, inside its data if it has up to sixteen bytes |
| `LayoutReading.SizesDemanded` | crates/telora-wasm-shared/src/trace.rs:94-186 | The calculated sizes of values are those the scanner demands of each layout |
| `LayoutBuilder.Builder.ListUsers` | crates/telora-core/src/candidate_layout.rs:311-325 | Each type's list holds exactly the types that mention it |
| `LayoutBuilder.Builder.OpenTypes` | crates/telora-core/src/candidate_layout.rs:326-353 | The worklist ends with the least closed set of open types: a quantified contract closes over bound parameters, never over free ones |
| `LayoutBuilder.Builder.OpenUsers` | crates/telora-core/src/candidate_layout.rs:343-353 | Opening the users of one type keeps the set founded and leaves no user of a finished type behind |
| `LayoutBuilder.Builder.CheckMembers` | crates/telora-core/src/candidate_layout.rs:358-376 | Fails exactly if a runtime type has a compile-time member |
| `LayoutBuilder.Builder.BoxCycles` | crates/telora-core/src/candidate_layout.rs:409-433 | A variant is boxed if and only if its payload leads back to its own type along inline edges |
| `LayoutBuilder.Builder.Prepare` | crates/telora-core/src/candidate_layout.rs:231-466 | All passes together establish the facts the sizing needs, or fail exactly on a misplaced member |
| `LayoutBuilder.Builder.Value` | crates/telora-core/src/candidate_layout.rs:492-643 | The memoising recursion ends on every type graph and answers what the graph determines, whatever was asked before |
| `LayoutBuilder.Builder.FieldsValue` | crates/telora-core/src/candidate_layout.rs:519-542 | The size of an inline aggregate is the sum over its fields |
| `LayoutBuilder.Builder.EnumValue` | crates/telora-core/src/candidate_layout.rs:608-637 | The size of an enum is tag plus the largest live payload, a boxed one taking a reference: four bytes (`LayoutMeaning.EnumLaid`) |
| `LayoutBuilder.Builder.Calculate` | crates/telora-core/src/candidate_layout.rs:784-788 | Either every type gets its layout or the error of some type is answered |
| `FrameScratch.Scratch.Push` | crates/telora-wasm-shared/src/frame_scratch.rs:26-79 | Entering does what the stack specification says, in place, or fails and changes no frame, word or pending packet |
| `FrameScratch.Scratch.PushWords` | crates/telora-wasm-shared/src/frame_scratch.rs:57-78 | The new frame is the relocated packet, its reference, and zeroed locals, behind the words there were |
| `FrameScratch.Scratch.CheckPacket` | crates/telora-wasm-shared/src/frame_scratch.rs:32-39 | Finds out exactly whether a transferred reference points beyond its packet |
| `FrameScratch.Scratch.Adopt` | crates/telora-wasm-shared/src/frame_scratch.rs:59-70 | Patching halves of words in place relocates the first references of the packet and nothing else |
| `FrameScratch.Scratch.Pop` | crates/telora-wasm-shared/src/frame_scratch.rs:81-85 | Leaving drops the newest frame with its words |
| `FrameScratch.Scratch.HandOff` | crates/telora-wasm-shared/src/frame_scratch.rs:89-110 | A tail call moves the packet out and drops its frame, or fails and changes nothing |
| `FrameScratch.Scratch.Reset` | crates/telora-wasm-shared/src/frame_scratch.rs:120-125 | Everything is gone, a packet in transfer too |
| `FrameScratch.Scratch.constructor` | crates/telora-wasm-shared/src/frame_scratch.rs:16-23 | An empty stack is consistent |
| `FrameScratch.EnterValid` | crates/telora-wasm-shared/src/frame_scratch.rs:26-79 | Entering keeps frames increasing and inside the namespace, and words within 64 bits |
| `FrameScratch.TailValid` | crates/telora-wasm-shared/src/frame_scratch.rs:89-110 | So does handing off |
| `FrameScratch.AdoptedReference` | crates/telora-wasm-shared/src/frame_scratch.rs:58-73 | Each adopted reference is below TRANSFER, and copied unchanged or relocated to the same place in the adopted packet; where that lies behind the packet's own reference words, which are relocated themselves, the word there is the one that was sent |
| `FrameScratch.TailReuse` | crates/telora-wasm-shared/src/frame_scratch.rs:26-110 | A tail call's successor starts at the base of the frame it replaces |
| `FrameRuns.RunKeeps` | crates/telora-wasm-shared/src/frame_scratch.rs:26-110 | Over any run of entries, returns, tail calls, writes and failures that keeps d frames, all frames below the d-th and all their words are as they were |
| `FrameRuns.CallRestores` | crates/telora-wasm-shared/src/frame_scratch.rs:26-110 | A call, anything its callee does, and its return: the caller finds its frames and every one of its words as it left them |
| `FrameRuns.ChainReuse` | crates/telora-wasm-shared/src/frame_scratch.rs:26-110 | However many functions hand over to one another, with any calls nested between, failed ones too: the stack is as deep as after the last hand-over alone, and the frames below are untouched |
| `FrameContents.CallFrame` | crates/telora-wasm-shared/src/frame_scratch.rs:26-79 | A call leaves the stack there was, then the argument word, then zeroed locals in as few words as hold them |
| `FrameContents.TailFrame` | crates/telora-wasm-shared/src/frame_scratch.rs:26-110 | A tail call puts the packet where the frame was, references to itself pointing at where it is now and all other words as they were, then a word that points at it, then zeroed locals |
| `FrameContents.EnterExactly` | crates/telora-wasm-shared/src/frame_scratch.rs:26-54 | Entering succeeds exactly if a packet is adopted when one is pending and only then, none of its references points beyond it, and the frame leaves room in the namespace |
| `FrameContents.TailExactly` | crates/telora-wasm-shared/src/frame_scratch.rs:89-104 | A packet is handed off exactly if none is pending and it is whole words of the newest frame with room for its references |
| `Content.Contents.Append` | crates/telora-wasm/rt/content_append.rs:22-59 | Appending yields owner then suffix, changes no byte seen through any existing view (also of the same storage), keeps the cost covered, and stops exactly on overflow |
| `Content.Contents.AppendInPlace` | crates/telora-wasm/rt/content_append.rs:40-48 | Writing behind a view that ends where its storage does touches unpublished bytes only |
| `Content.Contents.AppendMoved` | crates/telora-wasm/rt/content_append.rs:50-57 | Moving to storage of the next power of two shows owner then suffix |
| `Content.Contents.AppendAll` | crates/telora-wasm/rt/content_append.rs:22-59 | Over any chain of appends with one owner, where a suffix is any existing view, an earlier result of the chain, or new content written between two appends: every result goes on showing all views up to it in order, the chain stops exactly at the first append whose size computation overflows, and the bytes copied are at most five times the final length and a constant |
| `Content.SuffixShows` | crates/telora-wasm/rt/content_append.rs:22-59 | An earlier result used as a suffix still shows what it showed, and new content shows its bytes |
| `Content.Contents.AllocateCapacity` | crates/telora-wasm/rt/content.rs:6-13 | Fresh storage is accounted for and disturbs no view |
| `Content.Contents.Write` | crates/telora-wasm/rt/content.rs:64-95 | New content shows the given bytes, inline below sixteen, and disturbs no view |
| `Content.Contents.SliceOf` | crates/telora-wasm/rt/content.rs:98-134 | A slice shows the asked part of its owner; the runtime stops exactly beyond its end |
| `Content.Contents.Shown` | crates/telora-wasm/rt/content.rs:43-60 | The physical span of a view has the view's length |
| `Content.Contents.constructor` | crates/telora-wasm/rt/content.rs:22-26 | Empty storage is consistent |
| `Content.Capacity` | crates/telora-wasm/rt/content_append.rs:50-50 | The next power of two, less than twice the length |
| `Content.TailOnly` | crates/telora-wasm/rt/content_append.rs:44-45 | Storage that only grows behind its published bytes changes no view |
| `Content.PowersDouble` | crates/telora-wasm/rt/content_append.rs:50-50 | Of two powers of two the larger is at least the double |
| `Content.CoveredCost` | crates/telora-wasm/rt/content_append.rs:22-59 | A covered view has cost at most five times its length and a constant |
| `Content.CoveredStart` | crates/telora-wasm/rt/content_append.rs:22-59 | Any view may begin a chain at no cost |
| `Content.Stops` | crates/telora-wasm/rt/content_append.rs:22-53 | An append stops exactly if the whole is longer than 32 bits can say, the view would end beyond them, or it is longer than 2^31 bytes and would have to move |
| `Content.ShortInline` | crates/telora-wasm/rt/content.rs:64-95 | Content lies in its own view exactly if it is shorter than sixteen bytes |
| `ColumnMap.IntOrder` | crates/telora-wasm/rt/column_map.rs:38-42 | The built-in Int order is total, zero means equal, and below zero means smaller |
| `ColumnMap.BytesOrder` | crates/telora-wasm/rt/values.rs:27-40 | The byte-string order is total, zero means equal, and below zero means smaller at the first difference or a proper beginning of the other |
| `ColumnMap.StringCompare` | crates/telora-wasm/rt/values.rs:27-40 | The comparison loop computes that order: first difference, then length |
| `ColumnMap.FindAt` | crates/telora-wasm/rt/column_map.rs:197-219 | With strictly increasing keys an equivalent key has one position |
| `ColumnMap.FindLast` | crates/telora-wasm/rt/column_map.rs:174-196 | What a list of entries stands for at a key is the value of the last entry whose key is equivalent |
| `ColumnMap.MapMut.SetAt` | crates/telora-wasm/rt/column_map.rs:85-86 | Writing through the index changes one value of the sorted view |
| `ColumnMap.MapMut.InsertAt` | crates/telora-wasm/rt/column_map.rs:88-91 | Appending to the columns and inserting into the index inserts into the sorted view |
| `ColumnMap.MapMut.RemoveAt` | crates/telora-wasm/rt/column_map.rs:230-232 | Removing from the index removes from the sorted view; the columns stay |
| `ColumnMap.Columns.constructor` | crates/telora-wasm/rt/column_map.rs:30-33 | No request starts as failed |
| `ColumnMap.Columns.Compare` | crates/telora-wasm/rt/column_map.rs:35-62 | Sign of the order unless a call has failed, and it fails exactly if the callback has no answer; after a failure no callback is called; built-in orders never fail |
| `ColumnMap.Columns.Lower` | crates/telora-wasm/rt/column_map.rs:63-78 | The first position whose key is not below, and whether it is equivalent |
| `ColumnMap.Columns.Put` | crates/telora-wasm/rt/column_map.rs:79-94 | The map with the key set, keys still strictly increasing; a failure leaves the columns as they were |
| `ColumnMap.Columns.Load` | crates/telora-wasm/rt/column_map.rs:95-114 | A published map is loaded as it is |
| `ColumnMap.Columns.Finish` | crates/telora-wasm/rt/column_map.rs:132-153 | Published columns have equal lengths and strictly increasing keys |
| `ColumnMap.Columns.FromPairs` | crates/telora-wasm/rt/column_map.rs:174-196 | The finite map of the pairs, the last one winning; a failure publishes nothing |
| `ColumnMap.Columns.Lookup` | crates/telora-wasm/rt/column_map.rs:197-219 | Binary search finds what the map holds, or nothing |
| `ColumnMap.Columns.Insert` | crates/telora-wasm/rt/column_map.rs:221-224 | The map with one key set; a failure publishes nothing |
| `ColumnMap.Columns.Remove` | crates/telora-wasm/rt/column_map.rs:225-234 | The map without the key; a failure publishes nothing |
| `ColumnMap.Columns.Union` | crates/telora-wasm/rt/column_map.rs:235-244 | Right-biased union; a failure publishes nothing |
| `ColumnMap.Columns.ToPairs` | crates/telora-wasm/rt/column_map.rs:245-262 | All entries in increasing key order |
| `DocLayout.Render` | crates/telora-core/src/source_format.rs:315-355 | The stack machine writes exactly what the recursive layout says, for every document and width |
| `DocLayout.EmitText` | crates/telora-core/src/source_format.rs:322-335 | Output and column after a piece of text |
| `DocLayout.Rendered` | crates/telora-core/src/source_format.rs:315-355 | The output holds all text pieces in order with nothing but white space between, and the column is the true one |
| `DocLayout.WidthExact` | crates/telora-core/src/source_format.rs:272-314 | The cached flat width is the true width of the flat layout, saturating, and the maximum exactly if something breaks |
| `DocLayout.ConstructorsBuild` | crates/telora-core/src/source_format.rs:272-314 | Each constructor yields a document to which these results apply |
| `DocLayout.TextInOrder` | crates/telora-core/src/source_format.rs:315-355 | Laying out any document adds its text pieces in order, and white space only |
| `DocLayout.ColumnIsTrue` | crates/telora-core/src/source_format.rs:315-355 | The engine's column is the width of the last line written |
| `DocLayout.FlatLayout` | crates/telora-core/src/source_format.rs:315-355 | A flat layout stays on the line and is as wide as announced |
| `DocLayout.BrokenNeverFits` | crates/telora-core/src/source_format.rs:347-351 | A group with a hard break or multi-line text is never flat for a width below usize::MAX |
| `DocLayout.FlatGroup` | crates/telora-core/src/source_format.rs:347-351 | A group chosen flat writes no newline and ends at a column at most the width or the start column |
| `DocLayout.LayoutSpells` | crates/telora-core/src/source_format.rs:315-355 | A layout writes the leaves of the document in order: a hard break and a broken gap end the line, the next word stands four blanks further in for each nest around the break, and laid out flat no gap is broken |
| `DocLayout.GroupChosen` | crates/telora-core/src/source_format.rs:347-351 | A group is on one line exactly if its text has no break and fits behind the column or the owed indentation; otherwise each of its own gaps is a line break |
| `DocLayout.RenderedLeaves` | crates/telora-core/src/source_format.rs:315-355 | A rendered document is its leaves written so, every gap outside a group broken |
| `RegexContract.RequiredCaptured` | crates/telora-wasm/rt/regex_contract.rs:10-32 | Every match of the tree captures every required name, for every tree |
| `RegexContract.OthersMissed` | crates/telora-wasm/rt/regex_contract.rs:10-32 | Where leaves and alternatives can match and there is no look-around, every other name is absent from some match of the tree |
| `RegexContract.RequiredExact` | crates/telora-wasm/rt/regex_contract.rs:10-32 | There, a name is required if and only if every match of the tree captures it |
| `RegexContract.ExactWhen` | crates/telora-wasm/rt/regex_contract.rs:10-32 | For every tree without look-around: the analysis is exact for the matches of the tree if and only if something matches and leaving out alternatives that nothing matches would make no further name required |
| `RegexContract.UncertainMissed` | crates/telora-wasm/rt/regex_contract.rs:10-32 | A name that stays optional without dead alternatives is absent from some match of the tree, built branch by branch and round by round |
| `RegexContract.CertainCaptured` | crates/telora-wasm/rt/regex_contract.rs:10-32 | A name required without dead alternatives is captured by every match of the tree |
| `RegexContract.NotExactUnmatchable` | crates/telora-wasm/rt/regex_contract.rs:20-28 | With an alternative that nothing matches the analysis is not exact: a name captured by every match of the tree is not required |
| `RegexContract.Validate` | crates/telora-wasm/rt/regex_contract.rs:34-72 | Accepted exactly if names agree and every field is parsable and optional exactly if not required; otherwise the first offender is blamed |
| `RegexContract.AcceptedFields` | crates/telora-wasm/rt/regex_contract.rs:56-69 | An accepted required field is captured by every match of the tree, an optional one is missing from some match of the tree |
| `Sha256.Hash` | crates/telora-sha256/src/lib.rs:49-105 | Streaming is invisible: for any split of a message shorter than 2^61 bytes the digest is the one-shot digest of the whole |
| `Sha256.Context.constructor` | crates/telora-sha256/src/lib.rs:37-46 | A new context has taken in nothing |
| `Sha256.Context.Update` | crates/telora-sha256/src/lib.rs:49-70 | The context stands for everything taken in so far, whatever was buffered |
| `Sha256.Context.Blocks` | crates/telora-sha256/src/lib.rs:61-63 | All whole blocks of the input are hashed |
| `Sha256.Context.Feed` | crates/telora-sha256/src/lib.rs:61-69 | Whole blocks are hashed and the rest waits in the block |
| `Sha256.Context.Finish` | crates/telora-sha256/src/lib.rs:72-90 | The digest of the padded message, in one or two more blocks |
| `Sha256.Compress` | crates/telora-sha256/src/lib.rs:107-148 | The rounds over the filled schedule compute the compression function of section 6.2.2 of FIPS 180-4 |
| `Sha256.FillSchedule` | crates/telora-sha256/src/lib.rs:108-123 | The array holds the message schedule |
| `Sha256.SumOrder` | crates/telora-sha256/src/lib.rs:119-122 | The four terms of a schedule word may be added in the order the code uses |
| `Sha256.OneBlock` | crates/telora-sha256/src/lib.rs:80-84 | Padding that fits into the current block is that of section 5.1.1 |
| `Sha256.TwoBlocks` | crates/telora-sha256/src/lib.rs:76-84 | Padding that spills into another block is that of section 5.1.1 |
| `Sha256.HashedMore` | crates/telora-sha256/src/lib.rs:61-63 | Hashing one more block extends the hash of the blocks before it |
| `Sha256.ConstantsFromPrimes` | crates/telora-sha256/src/lib.rs:5-21 | The round constants are the first bits of the fractional parts of the cube roots of the first 64 primes, the initial value those of the square roots of the first eight |
| `Sha256.WordRoundTrip` | crates/telora-sha256/src/lib.rs:107-112 | Words and their bytes, most significant first, determine each other |
| `Sha256.ChooseMajority` | crates/telora-sha256/src/lib.rs:124-148 | The choice takes one of its last operands by the first, the majority what two of three agree on |
| `Sha256.BitImages` | crates/telora-sha256/src/lib.rs:114-148 | Where each of the four rotating functions takes the lowest bit and the last bit that a shift keeps |
| `Sha256.PaddingShape` | crates/telora-sha256/src/lib.rs:72-90 | A padded message is the message, a one bit and zeros in the fewest whole blocks that leave room for its length in bits, which the last eight bytes say |
| `Sha256.PaddingInjective` | crates/telora-sha256/src/lib.rs:72-90 | Different messages have different paddings |
| `PathNormal.Normalize` | crates/telora-wasm/rt/path.rs:69-110 | Normalising in a buffer of input length plus one computes the component-stack specification and never overruns the buffer |
| `PathNormal.LastComponent` | crates/telora-wasm/rt/path.rs:83-86 | The position behind the last slash |
| `PathNormal.Pop` | crates/telora-wasm/rt/path.rs:82-90 | `..` takes the last component away exactly if there is one that is not `..` itself |
| `PathNormal.Append` | crates/telora-wasm/rt/path.rs:95-101 | A component goes behind one slash |
| `PathNormal.AddComponent` | crates/telora-wasm/rt/path.rs:78-102 | One component in the buffer does what it does on the stack, in at most its own length and a separator |
| `PathNormal.FoldCanonical` | crates/telora-wasm/rt/path.rs:78-102 | No empty or `.` component; `..` only as a leading run of a relative path |
| `PathNormal.SplitShown` | crates/telora-wasm/rt/path.rs:78-109 | Reading a normal path gives back the stack it shows |
| `PathNormal.Idempotent` | crates/telora-wasm/rt/path.rs:69-110 | Normalising twice is normalising once, and absoluteness is kept |
| `PathNormal.SamePlace` | crates/telora-wasm/rt/path.rs:69-110 | From any directory, a normal path leads to where the path it was made from leads |
| `PathNormal.JoinParts` | crates/telora-wasm/rt/path.rs:34-67 | Parts from the last absolute one on, with single separators |
| `PathNormal.ParentAndFile` | crates/telora-wasm/rt/path.rs:128-145 | Joining parent and file name of any normal path gives it back |
| `SnapshotCodec.Encode` | crates/telora-wasm-shared/src/snapshot_artifact.rs:34-65 | Succeeds exactly if all lengths fit 32 bits, with the format's bytes |
| `SnapshotCodec.Decode` | crates/telora-wasm-shared/src/snapshot_artifact.rs:96-128 | Whatever is accepted re-encodes to exactly the input, and every encodable snapshot's image decodes to that snapshot |
| `SnapshotCodec.ReadsExact` | crates/telora-wasm-shared/src/snapshot_artifact.rs:96-128 | Reading all parts in turn, with the count guard and the check for trailing bytes, succeeds exactly on images |
| `SnapshotCodec.NineEach` | crates/telora-wasm-shared/src/snapshot_artifact.rs:105-108 | A global takes at least nine bytes, so the guard never rejects an image |
| `SnapshotCodec.NumberExact` | crates/telora-wasm-shared/src/snapshot_artifact.rs:86-88 | A number is read exactly where it was written |
| `SnapshotCodec.BytesExact` | crates/telora-wasm-shared/src/snapshot_artifact.rs:90-93 | A framed field is read exactly where it was written |
| `SnapshotCodec.ValueExact` | crates/telora-wasm-shared/src/snapshot_artifact.rs:114-121 | A tagged number of any of the four types is read exactly where it was written, sign included |
| `SnapshotCodec.GlobalExact` | crates/telora-wasm-shared/src/snapshot_artifact.rs:111-122 | A global is read exactly where it was written |
| `SnapshotCodec.GlobalsExact` | crates/telora-wasm-shared/src/snapshot_artifact.rs:110-123 | Globals are read exactly where they were written |
| `SnapshotCodec.EncodedInjective` | crates/telora-wasm-shared/src/snapshot_artifact.rs:34-65 | Different snapshots have different images |
| `SnapshotCodec.ImageParts` | crates/telora-wasm-shared/src/snapshot_artifact.rs:34-50 | An image is eight letters, the version, the guest behind its length, the number of globals and the globals, numbers least significant byte first |
| `SnapshotCodec.GlobalParts` | crates/telora-wasm-shared/src/snapshot_artifact.rs:46-64 | A global is its name behind its length, one byte for its type, and its number in four or eight bytes, a negative one as its complement |
| `SnapshotCodec.Reader.constructor` | crates/telora-wasm-shared/src/snapshot_artifact.rs:97-97 | Reading starts at the beginning |
| `SnapshotCodec.Reader.Take` | crates/telora-wasm-shared/src/snapshot_artifact.rs:73-84 | The next bytes, or truncation without moving |
| `SnapshotCodec.Reader.ReadNumber` | crates/telora-wasm-shared/src/snapshot_artifact.rs:86-88 | The next little-endian number |
| `SnapshotCodec.Reader.ReadBytes` | crates/telora-wasm-shared/src/snapshot_artifact.rs:90-93 | The next framed field |
| `SnapshotCodec.Reader.ReadValue` | crates/telora-wasm-shared/src/snapshot_artifact.rs:114-121 | The next tagged number, unknown tags refused |
| `SnapshotCodec.Reader.ReadGlobal` | crates/telora-wasm-shared/src/snapshot_artifact.rs:111-122 | The next global, names not in UTF-8 refused |

## Left out

Of the collectors:

- Function-demand edges and the packing mode, in which a runtime image is published.
- Source ranges and the set of retained sources; source tables.
- Parse plans, contexts and source roots of the marker; an execution root is a value
  root. Pins of the copying collector are further roots; `GcRoots` says what
  relocating them keeps.
- The scanner's `Layout` errors and checked 32-bit arithmetic: on a well-typed heap
  they do not occur.
- MarkSweep.Mark.MarkObject: the visit table is keyed by table and id, not also by
  the type under which the object was reached; a well-typed object has one.
- CopyCollector.Collector.Collect: the slots of a resource table are a sequence; the
  buffer they are written to afterwards is not part of the new heap. What a failed
  demand holds is left where it is, as in the source.
- MarkSweep.Mark.MarkSlot: keyed by table and slot, like `MarkObject`.
- MarkSweep.Collect: says nothing of collection intervals, heap limits and counters.
  The slots of a table are those of `ResourceTables.Table`; its buffer is storage.
- Raw byte storage is kept beside the words of the heap, not in them.
- ResourceTables.Table.Push: the buffer a grown table leaves behind is not modelled.

Of the store:

- Database engine, file system details (identities, volumes, content stamps,
  synchronisation, permissions) and the steps inside persisting a request; each is
  one step that may fail.
- StoreProtocol.EveryRowPublished: key file and root only, because nothing else is
  looked at before an installation is taken as cached; `StoreDamage.WholeUnlessTorn`
  says when its content is complete. Installations only: a cached one skips its
  downloads, so a row's downloads need not be present.
- StoreProtocol.GcSettles: link counts are those gc read; other processes may change
  them at any time.
- CreateReducer.RunCreate: in which order the effects of one reduction start,
  timestamps and names of statuses. A failure inside a drain of progress stops it, so
  queued statuses may be lost; a registration may follow a progress failure, because
  publication does not look at the result.
- Downloading, unpacking and executing items; garbage-collection reports.

Of the layout calculation:

- How types are sealed, which members nominal definitions have and which records are
  module exports: they are the type graph the model starts from.
- Storage formulas of objects, strides, entry names and encodings.
- LayoutBuilder.Builder.Prepare: a definition that cannot be looked up is not
  modelled.

Of the rest:

- Scratch capacity and raw addresses; overflow of the machine word where the
  namespace bound is reached first.
- The sixteen-byte encoding of a content view.
- Heap storage of columns, pairs and published maps in `ColumnMap`; lengths above 32 bits.
- Conversion of source text to documents, and trailing white space of the formatter.
- Parsing of regular expressions and extraction of capture names.
- RegexContract.AcceptedFields: a match is any match of the tree, while the engine
  answers the leftmost, first-branch one. Required names are captured by its answers
  all the same, but an optional one may be too: of `(?P<a>x)|(?P<b>x)` the engine
  always captures `a`, and some match of the tree does not.
- RegexContract.ExactWhen: a look-around holds anywhere in the match semantics, so
  trees with one are excluded; that required names are captured is proved for them
  too.
- Hexadecimal rendering of digests.
- Sha256.BitImages: two bits of each function, not all of them; the rotation amounts
  are otherwise those of section 4.1.2 of FIPS 180-4.
- Percent encoding and decoding of URI components; spans that carry results to the host.
- SnapshotCodec.Decode: does not say which of several errors a malformed artifact is
  answered with. Whether bytes are UTF-8 is a parameter.
