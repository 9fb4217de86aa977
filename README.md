# littlevk, modelled in Dafny

littlevk is a header-only C++ helper library over Vulkan (`littlevk.hpp`).
It comes with example programs, two of which are modelled here: a mesh
viewer and a model viewer. This project models the part of the library
and of those two programs that runs on the CPU and decides things.

The library part covers:

- the deallocation system: a FIFO queue of destruction records, the
  `Deallocator` that drains it, and the device and composed return proxies
  that hand back a created value and, on `defer` or `unwrap`, queue its
  destruction;
- the creation helpers (buffers, images, render passes, framebuffers,
  shader modules, pipeline and descriptor set layouts) and the linked
  device allocator;
- the render-pass, subpass and pipeline assemblers, and vertex layouts;
- `descriptor_set_update`, `find_memory_type`, `physical_device_able` and
  `pick_physical_device`;
- the image layout transition table and shader stage translation;
- `fmt_lines` and the shader compile error rule;
- swapchain parameter selection, creation, resize and destruction, and
  `Skeleton::resize`;
- presentation synchronisation, `acquire_image` and `present_image`.

The examples part covers the Assimp scene walk of both viewers: the face
stack that groups indices into triangles, `process_mesh`,
`process_node`, `load_mesh` and `load_model`. It also covers the model
viewer's texture cache, `vulkan_mesh` and descriptor linking, and the two
render loops: frames in flight and the pause toggle in both, resize
handling in the mesh viewer's (the model viewer's loop has none).

Every native Vulkan call goes through one `Vk.Device` object. It hands out
handles in creation order (the n-th object created has handle n) and logs
every object created and every value destroyed. Contracts therefore state
exactly which objects an operation creates and destroys, and in which
order. Outcomes the code cannot see in advance are parameters of the
model, for example:

- whether a native create call succeeds;
- the result code a swapchain call returns;
- whether an image file loads;
- how many images the driver gives a swapchain;
- the compiler's log.

The library is compiled with Vulkan-Hpp's default error handling: a call
whose result is not one of its success codes throws. The presentation
model writes a call as `Returned`/`Threw` and an operation's effect as
`Completed`/`Propagated`.

Modules: `Vk` (vk.dfy), `Sequences`, `Deallocation`, `Allocation`,
`Memory`, `Devices`, `Tables`, `Shader`, `Pipelines` (pipeline.dfy),
`RenderPass`, `Descriptors`, `Surface`, `Presentation`, `Scenes`
(examples_common.dfy), `MeshViewer` and `ModelViewer`.

## Model

| member | source | states |
|---|---|---|
| Deallocation.Released | littlevk.hpp:212-217 | the values a list of records destroys, one per record, in queue order |
| Deallocation.ReleasedAppend | littlevk.hpp:212-217 | draining a concatenation of queues destroys the first part's values, then the second's |
| Deallocation.Deallocator.constructor | littlevk.hpp:207-211 | a new deallocator holds an empty queue of pending destructions |
| Deallocation.Deallocator.Drop | littlevk.hpp:212-217 | the destructor pops the queue front to back and runs each destruction: the device's destroyed list grows by the pending objects in the order they were pushed, and the queue ends empty |
| Deallocation.Succeeded | littlevk.hpp:226 | a proxy built from a value has not failed and carries that value |
| Deallocation.Failed | littlevk.hpp:227 | a proxy built from `true` has failed and carries the null object |
| Deallocation.DeviceReturnProxy.Defer | littlevk.hpp:243-255 | a failed proxy yields the null value and pushes nothing; otherwise it yields its value and pushes exactly one destruction record for it onto the given queue |
| Deallocation.DeviceReturnProxy.Unwrap | littlevk.hpp:229-241 | the same as defer, against the deallocator's own queue |
| Deallocation.DeferTwice | littlevk.hpp:222-256 | a proxy keeps no spent state: deferring the same successful proxy twice queues its destruction twice |
| Deallocation.ComposedReturnProxy.constructor | littlevk.hpp:265-266 | a composed proxy built from a value and a queue has not failed, and owns a copy of that queue |
| Deallocation.ComposedReturnProxy.Failure | littlevk.hpp:267 | a composed proxy built from `true` has failed, with the default value and an empty queue |
| Deallocation.ComposedReturnProxy.Defer | littlevk.hpp:281-291 | a failed composed proxy yields the value-initialised value it holds and leaves the target queue alone; otherwise every record it carries is moved, in order, to the end of the target queue and its own queue ends empty |
| Deallocation.ComposedReturnProxy.Unwrap | littlevk.hpp:269-279 | the same as defer, against the deallocator's queue |
| Allocation.CreateBuffer | littlevk.hpp:1611-1655 | buffer() creates the buffer and then its memory, and its proxy never fails |
| Allocation.CreateImage | littlevk.hpp:1790-1849 | image() creates the image, its memory, then its view, and its proxy never fails |
| Allocation.FilledBuffer | littlevk.hpp:1659-1666 | the uploading buffer() overloads create exactly the buffer and then its memory, destroy nothing, and return a composed proxy that has not failed and whose queue holds exactly the new buffer's destruction |
| Allocation.RecordsOfAppend | littlevk.hpp:2317 | the destruction records of a concatenation of objects are the records of each part, in order |
| Allocation.LinkedAllocator.WithImage | littlevk.hpp:2311-2319 | image() appends one image to the allocator's objects, creates exactly its image, memory and view in that order, hands its destruction to the deallocator at once and keeps the same device and deallocator |
| Allocation.LinkedAllocator.WithBuffer | littlevk.hpp:2321-2327 | buffer() appends one buffer the same way, creating exactly its buffer and then its memory |
| Allocation.LinkedAllocator.With | littlevk.hpp:2311-2327 | one step appends an object of the kind the step names, creates exactly that object's native objects, and the deallocator receives its record |
| Allocation.LinkedAllocator.Unpack | littlevk.hpp:2304-2309 | the conversion yields the lone object exactly when there is one, and the whole tuple otherwise |
| Allocation.Bind | littlevk.hpp:2331-2339 | bind() starts an allocator with no objects on the given device and deallocator |
| Allocation.Chain | littlevk.hpp:2280-2339 | after a chain of steps the i-th object has the shape of the i-th step, the device has created exactly the objects' native objects in step order, and the deallocator has received exactly the objects' records in creation order |
| Allocation.RecordsStep | littlevk.hpp:2316-2318 | the record of the newest object follows the records of the objects made before it |
| Allocation.CreatedBy | littlevk.hpp:2311-2327 | a buffer step creates its buffer and then its memory; an image step its image, its memory and then its view |
| Allocation.CreatedByAll | littlevk.hpp:2280-2339 | no steps create nothing |
| Allocation.CreatedByAllAppend | littlevk.hpp:2316-2326 | the native objects of a concatenation of steps are those of each part, in order |
| Descriptors.WriteFor | littlevk.hpp:2397-2408 | the write for one binding targets the set, the binding's slot, count and type from array element 0, and points at the image information exactly when it is an image element and at the buffer information exactly when it is a buffer element |
| Descriptors.DescriptorSetUpdate | littlevk.hpp:2387-2412 | descriptor_set_update produces one write per binding, the i-th built from the i-th binding and the i-th information record |
| Descriptors.ElementIgnored | littlevk.hpp:2357-2402 | the array element an information record carries never reaches the write |
| Memory.FindMemoryType | littlevk.hpp:1589-1609 | the result is uint32_t's maximum exactly when no type among the first memoryTypeCount is admitted by the filter with every requested property; otherwise it is the least such type |
| Devices.PhysicalDeviceAble | littlevk.hpp:1358-1376 | a device is able exactly when it offers every requested extension; otherwise the reported extension is the first requested one it lacks |
| Devices.PickPhysicalDevice | littlevk.hpp:1379-1393 | the result is the first device, in enumeration order, that the predicate accepts, and none exactly when it accepts none |
| Tables.Transition | littlevk.hpp:1853-1998 | for a supported layout pair every access mask is one its stage supports and no stage is zero; an unsupported old or new layout is logged by both of its switches and leaves an empty mask and a zero stage; the aspect is depth exactly for the depth-stencil attachment layout |
| Tables.TranslateShaderStage | littlevk.hpp:2428-2466 | an unknown stage is logged and compiled as a vertex shader; every known stage translates without a log |
| Tables.StageOf | littlevk.hpp:2431-2458 | every compiler stage maps back to a known Vulkan stage |
| Tables.TranslationRoundTrip | littlevk.hpp:2428-2466 | translation is a bijection between the known stages and the compiler stages |
| Shader.Digit | littlevk.hpp:2530 | a decimal digit is a character between '0' and '9' |
| Shader.DecimalString | littlevk.hpp:2530 | std::to_string of a line number is a non-empty string of digits without a leading zero |
| Shader.DecimalRoundTrip | littlevk.hpp:2530 | the decimal text of a line number reads back as that number |
| Shader.NewlineAt | littlevk.hpp:2529 | the position getline stops at is the first newline, or the end of the text |
| Shader.LinesRoundTrip | littlevk.hpp:2526-2532 | the lines getline extracts, each terminated again, give back the text, plus a final newline when it had none |
| Shader.LinesSplit | littlevk.hpp:2529 | the first line of a text ends at its first newline |
| Shader.TerminatedAfterNewline | littlevk.hpp:2529-2530 | terminating the first line and the rest of a text terminates the whole text |
| Shader.JoinCons | littlevk.hpp:2530 | terminating a list of lines terminates its first line, then the rest |
| Shader.NumberedCons | littlevk.hpp:2530-2531 | numbering a list of lines numbers its first line with n and the rest from n + 1 |
| Shader.Getline | littlevk.hpp:2529 | one getline call consumes at least one character and returns a line without newlines |
| Shader.GetlineIsFirstLine | littlevk.hpp:2529 | the line one getline call returns is the first of the remaining lines, and the rest follow it |
| Shader.FmtLines | littlevk.hpp:2520-2535 | fmt_lines writes every line of the text as "<n>: <line>" plus a newline, numbering consecutively from 1 |
| Shader.Compile | littlevk.hpp:2546-2574 | the proxy fails exactly when the compiler log is non-empty, and then the message shows the reported source numbered by fmt_lines and nothing is created; otherwise exactly one shader module is created and returned |
| Pipelines.TranslatorFormat | littlevk.hpp:2782-2786 | only r32f lacks a vertex format; every other type maps to a two-, three- or four-float format |
| Pipelines.SumCons | littlevk.hpp:2773-2780 | the total size of a list of types is the first type's size plus the rest's |
| Pipelines.SumPrefixMonotone | littlevk.hpp:2773-2780 | the size of a prefix of the types grows with the prefix |
| Pipelines.SizeofAll | littlevk.hpp:2772-2780 | sizeof_all adds up every type's size |
| Pipelines.AttributesFor | littlevk.hpp:2796-2809 | attributes_for gives one attribute per type, the first at the starting location and offset |
| Pipelines.AttributeAt | littlevk.hpp:2796-2809 | attribute i is at location index + i in binding 0 with its type's format, at the starting offset plus the sizes of the types before it |
| Pipelines.AttributesForLayout | littlevk.hpp:2796-2809 | the same, for every attribute at once |
| Pipelines.Layout | littlevk.hpp:2811-2825 | a VertexLayout has binding 0, per-vertex rate and the total size as stride, one attribute per type, the first at location 0 and offset 0 |
| Pipelines.LayoutPacked | littlevk.hpp:2811-2825 | a VertexLayout packs its attributes: attribute i sits at location i and at the sum of the earlier sizes, each ends where the next begins, and the last ends at the stride, which is the sum of all sizes |
| Pipelines.PrefixEnds | littlevk.hpp:2799-2805 | a type ends where the prefix through it ends, and that is within the whole size |
| Pipelines.ShaderStageBundle.constructor | littlevk.hpp:2834-2835 | a new bundle has no stages |
| Pipelines.ShaderStageBundle.Attach | littlevk.hpp:2837-2841 | attach appends exactly one stage with entry point "main": a failed compilation leaves the null module, creates nothing and queues no record; otherwise exactly the new module is created and its destruction goes to the deallocator |
| Pipelines.PipelineState | littlevk.hpp:2644-2730 | the fixed-function state compile gives a pipeline: vertex input only when both the binding and the attributes are given; the viewport and scissor are dynamic or one fixed pair over the extent; alpha blending (source alpha over one minus source alpha) exactly when asked for; the requested fill and cull modes; depth test and write always on |
| Pipelines.CompilePipeline | littlevk.hpp:2639-2750 | pipeline::compile logs exactly when the stage list is empty, creates exactly one pipeline, and creates it with the fixed-function state PipelineState gives for the create info |
| Pipelines.CreateObject | littlevk.hpp:2205-2228 | descriptor_set_layout() and pipeline_layout() fail, creating nothing, exactly when the native result is not success |
| Pipelines.PipelineAssembler.constructor | littlevk.hpp:2873-2874 | a new assembler has subpass 0, a default binding and nothing accumulated |
| Pipelines.PipelineAssembler.WithRenderPass | littlevk.hpp:2876-2880 | sets the render pass and subpass and nothing else |
| Pipelines.PipelineAssembler.WithVertexLayout | littlevk.hpp:2882-2889 | the layout's binding and attributes replace the current ones and nothing else changes |
| Pipelines.PipelineAssembler.WithShaderBundle | littlevk.hpp:2891-2894 | the bundle's stages replace the current ones and nothing else changes |
| Pipelines.PipelineAssembler.WithDslBinding | littlevk.hpp:2896-2899 | appends one binding and nothing else changes |
| Pipelines.PipelineAssembler.WithDslBindings | littlevk.hpp:2901-2906 | appends the bindings in order and nothing else changes |
| Pipelines.PipelineAssembler.WithPushConstant | littlevk.hpp:2908-2912 | appends a range at offset 0 of the type's size for the stage, and nothing else changes |
| Pipelines.PipelineAssembler.Compile | littlevk.hpp:2914-2953 | a descriptor set layout exists exactly when bindings were given; the pipeline layout lists it and the push constants in order; the pipeline uses the accumulated state with a dynamic viewport, filled polygons and no culling, so it is created with the accumulated vertex input, dynamic viewport and scissor, no blending, filled polygons, no culling and depth test and write on; the deallocator receives the set layout, the pipeline layout and the pipeline in that order, each only if it was created; exactly these three objects are created, in that order, again each only if its creation succeeds |
| Pipelines.PipelineAssembler.CreateLayouts | littlevk.hpp:2917-2935 | a descriptor set layout is made exactly when bindings were given, and the pipeline layout lists it and the push constants; the device creates exactly the layouts whose creation succeeds, set layout first, and the deallocator receives the same |
| RenderPass.DefaultColorAttachment | littlevk.hpp:984-995 | the colour preset is a single-sample attachment in the swapchain's format, cleared on load and stored, stencil ignored, from an undefined layout to the presentation layout |
| RenderPass.DefaultDepthAttachment | littlevk.hpp:997-1008 | the depth preset is a single-sample 32-bit float attachment, cleared on load and not stored, stencil ignored, from an undefined layout to the depth-stencil attachment layout |
| RenderPass.PresetsSetEveryField | littlevk.hpp:942-1008 | each preset's setter chain sets all eight fields, so its result does not depend on the description it starts from |
| RenderPass.CreateRenderPass | littlevk.hpp:1027-1045 | render_pass() fails, creating nothing, exactly when the native result is not success; otherwise it creates exactly one render pass |
| RenderPass.RenderPassAssembler.constructor | littlevk.hpp:1057-1058 | a new assembler has no attachments, subpasses or dependencies |
| RenderPass.RenderPassAssembler.AddAttachment | littlevk.hpp:1061-1064 | appends the description and changes nothing else |
| RenderPass.RenderPassAssembler.AddSubpass | littlevk.hpp:1105-1107 | returns a new, empty subpass assembler bound to this assembler with the given bind point |
| RenderPass.RenderPassAssembler.AddDependency | littlevk.hpp:1109-1112 | appends the dependency and changes nothing else |
| RenderPass.RenderPassAssembler.Build | littlevk.hpp:1114-1116 | the conversion yields the null handle, creates nothing and queues nothing when creation fails; otherwise exactly the new render pass is created and its destruction goes to the deallocator |
| RenderPass.SubpassAssembler.constructor | littlevk.hpp:1075-1076 | a new subpass assembler has no references |
| RenderPass.SubpassAssembler.InputAttachment | littlevk.hpp:1078-1081 | appends an input reference and changes nothing else |
| RenderPass.SubpassAssembler.ColorAttachment | littlevk.hpp:1083-1086 | appends a colour reference and changes nothing else |
| RenderPass.SubpassAssembler.DepthAttachment | littlevk.hpp:1088-1091 | replaces the depth reference and changes nothing else |
| RenderPass.SubpassAssembler.Done | littlevk.hpp:1093-1102 | appends this subpass's description to the parent's subpasses and changes nothing else of the parent |
| RenderPass.SubpassOfAppend | littlevk.hpp:1078-1091 | one more call adds its reference at the end of its own list, and a depth call replaces the depth reference |
| RenderPass.RunSubpassOrder | littlevk.hpp:1066-1103 | a subpass holds its input and colour references in the order they were added and the depth reference of the last depth call |
| RenderPass.ScriptOfAppend | littlevk.hpp:1061-1112 | one more assembler call adds its item at the end of its own list |
| RenderPass.ReplayOrder | littlevk.hpp:1048-1117 | the assembled render pass lists attachments, subpasses and dependencies each in the order added, whatever the interleaving of the three kinds of call |
| RenderPass.RunSubpassCalls | littlevk.hpp:1078-1091 | driving a subpass assembler through a list of calls leaves the description those calls assemble |
| RenderPass.Assemble | littlevk.hpp:1048-1117 | driving a render pass assembler through a session leaves the create info that session assembles: attachments and subpasses in call order |
| RenderPass.FramebufferGenerator.constructor | littlevk.hpp:892-894 | a new generator has no framebuffers |
| RenderPass.FramebufferGenerator.Add | littlevk.hpp:896-908 | add creates exactly one framebuffer, over the given views, for the generator's render pass and extent with one layer; it appends it and hands its destruction to the deallocator |
| RenderPass.FramebufferGenerator.Unpack | littlevk.hpp:910-914 | unpack returns every framebuffer added so far and leaves the list empty |
| Surface.FirstIn | littlevk.hpp:659-667 | the result is the first element of the list that is a target; none exactly when no element is one |
| Surface.PickSurfaceFormat | littlevk.hpp:639-672 | a lone undefined format or a reported B8G8R8A8 unorm / sRGB non-linear pair yields that pair; any other list yields none, standing for the thrown runtime_error |
| Surface.PickPresentMode | littlevk.hpp:675-705 | mailbox exactly when the surface offers it; otherwise the first offered mode among immediate and FIFO; FIFO when no offered mode is a target |
| Surface.PresentModeSupported | littlevk.hpp:694-704 | when the surface offers FIFO, the picked mode is always one it offers |
| Surface.Clamp | littlevk.hpp:733-743 | std::clamp keeps a value already within the bounds and otherwise returns a bound; with ordered bounds the result lies within them |
| Surface.ChooseExtent | littlevk.hpp:731-746 | the surface's current extent unless its width is the uint32_t maximum; then each requested dimension is clamped into the surface's limits, and a requested extent within them is kept as is |
| Surface.PreTransform | littlevk.hpp:749-753 | the pre-transform is identity or the surface's current transform, and identity whenever the surface supports it |
| Surface.PreTransformSupported | littlevk.hpp:749-753 | the pre-transform is identity or the current transform, and it is supported whenever the current transform is |
| Surface.CompositeAlphaAsWritten | littlevk.hpp:756-760 | opaque exactly when the surface supports it, pre-multiplied otherwise |
| Surface.CompositeAlphaAsWrittenUnsupported | littlevk.hpp:756-760 | a surface supporting only inherited alpha is given pre-multiplied alpha, which it does not support |
| Surface.PickCompositeAlpha | littlevk.hpp:756-760 | the corrected pick is always one of the four composite alpha modes |
| Surface.PickCompositeAlphaSupported | littlevk.hpp:756-760 | the corrected pick is supported whenever the surface supports any mode, and equals the written pick wherever that one was supported |
| Surface.SwapchainInfo | littlevk.hpp:709-793 | no create info exactly when no surface format is acceptable; otherwise the preferred format and colour space, the chosen extent, the surface's minimum image count, concurrent sharing with both queue families exactly when they differ, the priority present mode if given or the picked one, the chosen pre-transform, and the composite alpha as the library writes it (opaque if supported, else pre-multiplied) |
| Surface.CorrectedSwapchainInfo | littlevk.hpp:709-793 | the same create info with only the composite alpha corrected, which is then a supported one whenever the surface supports any |
| Surface.Natives | littlevk.hpp:799-816 | one created object of the given kind per handle, in order |
| Surface.NativesAppend | littlevk.hpp:813-816 | the objects of a concatenation of handles are those of each part, in order |
| Surface.Views | littlevk.hpp:829-830 | one destroyed image view per handle, in order |
| Surface.ViewsAppend | littlevk.hpp:829-830 | the views of a concatenation of handles are those of each part, in order |
| Surface.CreateEach | littlevk.hpp:813-816 | creates exactly `count` objects of one kind, in order, and destroys nothing |
| Surface.DestroyViews | littlevk.hpp:829-830 | destroys every view of the list, in order, and creates nothing |
| Surface.CreateSwapchainObjects | littlevk.hpp:796-816 | creates the swapchain, then the images the driver reports, then one view per image, and nothing else |
| Surface.Swapchain.constructor | littlevk.hpp:709-819 | the swapchain keeps the create info and its format, and holds one view per image, created after the swapchain and its images |
| Surface.Swapchain.Resize | littlevk.hpp:821-856 | resize destroys the old views in order and then the old swapchain, records the new extent and changes nothing else of the create info, and rebuilds the swapchain, images and one view per image |
| Surface.DestroySwapchain | littlevk.hpp:858-866 | destroy_swapchain destroys the views in order, then the swapchain, and creates nothing |
| Surface.ResizeExtent | littlevk.hpp:1533-1540 | with limits below 2^31 each dimension of the new extent lies within the surface's limits, and a framebuffer size already within them is kept |
| Surface.Skeleton.constructor | littlevk.hpp:1395-1404 | the skeleton holds the given window extent and swapchain |
| Surface.Skeleton.Resize | littlevk.hpp:1515-1543 | the window extent becomes the clamped framebuffer size; the old views and then the old swapchain are destroyed, and exactly the new swapchain, its images and then its views are created, at that extent and in the same format |
| Presentation.CheckResult | littlevk.hpp:1315 | a checked call returns exactly its success codes and throws every other code as the matching error |
| Presentation.AcquireBranches | littlevk.hpp:1317-1328 | out-of-date means resize; success and suboptimal give the image index; every other code fails with index 0; only a usable image resets the fence |
| Presentation.AcquireImageAsWritten | littlevk.hpp:1307-1329 | as written, an out-of-date swapchain escapes acquire_image as a thrown error |
| Presentation.AcquireImageAsWrittenNeverResizes | littlevk.hpp:1315-1319 | as written, acquire_image never completes with the resize status |
| Presentation.AcquireImage | littlevk.hpp:1307-1329 | resize exactly for out-of-date; the image with a fence reset exactly for success or suboptimal; failure exactly for timeout or not-ready; every other code escapes as itself |
| Presentation.AcquireImageAgrees | littlevk.hpp:1307-1329 | wherever the written acquire_image completes, the corrected one completes with the same report |
| Presentation.PresentImage | littlevk.hpp:1331-1355 | resize exactly for out-of-date; ok exactly for success or suboptimal; every other code escapes; a completed report carries index 0 |
| Presentation.PresentWaitSemaphores | littlevk.hpp:1336-1338 | present_image waits on the frame's render-finished semaphore when a frame is given, and on nothing otherwise |
| Presentation.PresentSynchronization | littlevk.hpp:1277-1295 | for each frame in flight, in order, an image-available semaphore, a render-finished semaphore and a fence are created, three arrays of that length are returned, slot i holding the three objects made for it, and the proxy does not fail |
| Presentation.FrameAt | littlevk.hpp:1253-1259 | the slot's handles are the index-th image-available semaphore, render-finished semaphore and fence |
| Presentation.SlotsDisjoint | littlevk.hpp:1253-1259 | in a set made by PresentSynchronization the three handles of a slot differ, and two different slots share no handle |
| Scenes.ChildrenSplit | examples/model_viewer.cpp:929-933 | the pre-order indices of the first i children, followed by those of the rest, are those of all the children |
| Scenes.ChildrenComplete | examples/model_viewer.cpp:929-933 | gathering the children one by one from the first yields all their pre-order indices |
| Scenes.GroupedLength | examples/mesh_viewer.cpp:475-490 | the face stack emits a multiple of three indices, at most the number pushed and fewer than three short of it |
| Scenes.GroupedTriple | examples/mesh_viewer.cpp:480-487 | triangle k is the k-th run of three pushed indices, most recent first |
| Scenes.GroupedEmpty | examples/mesh_viewer.cpp:475-490 | some triangle comes out exactly when at least three indices are pushed |
| Scenes.PushStep | examples/mesh_viewer.cpp:479-488 | pushing one index keeps the stack below three between pushes and loses no triangle still owed |
| Scenes.GroupTriangles | examples/mesh_viewer.cpp:474-490 | the face loop's triangles are those of all face indices flattened, shared across faces, three at a time and reversed |
| Scenes.NonEmptyIds | examples/model_viewer.cpp:921-926 | every index kept refers to a mesh that yields triangles |
| Scenes.NonEmptyIdsAppend | examples/model_viewer.cpp:929-933 | filtering a concatenation of indices filters each part, in order |
| Scenes.PauseStep | examples/mesh_viewer.cpp:347-354 | the pause flips exactly on an iteration where space is down and was not down before; the pressed flag records whether space is down |
| Scenes.HoldTogglesOnce | examples/model_viewer.cpp:746-753 | holding space for any number of iterations toggles the pause once |
| Scenes.HoldsAfterPress | examples/mesh_viewer.cpp:347-351 | once space was down, holding it changes nothing |
| MeshViewer.Paired | examples/mesh_viewer.cpp:458-472 | one vertex per position, with the normal of the same index |
| MeshViewer.ProcessMesh | examples/mesh_viewer.cpp:451-493 | one vertex per imported vertex with its normal, in order, and the face stack's triangles, a multiple of three indices |
| MeshViewer.FirstMeshIsFirstNonEmpty | examples/mesh_viewer.cpp:495-512 | the first mesh with triangles among a list of indices is the processed mesh of the first index that yields triangles, or the empty mesh |
| MeshViewer.FirstMeshAppend | examples/mesh_viewer.cpp:505-509 | the first mesh of a concatenation is the first part's unless that part has none |
| MeshViewer.FirstMeshFound | examples/mesh_viewer.cpp:500-501 | a mesh found this way has triangles, unless it is the empty mesh |
| MeshViewer.ProcessNode | examples/mesh_viewer.cpp:495-512 | process_node returns a mesh with triangles, or the empty mesh |
| MeshViewer.MeshLoop | examples/mesh_viewer.cpp:497-502 | the own-mesh loop returns a mesh with triangles, or the empty mesh |
| MeshViewer.ChildLoop | examples/mesh_viewer.cpp:505-511 | the child loop returns a mesh with triangles, or the empty mesh |
| MeshViewer.ProcessNodeIsFirstInPreorder | examples/mesh_viewer.cpp:495-512 | process_node returns the first mesh with triangles in pre-order over the subtree |
| MeshViewer.MeshLoopIsFirst | examples/mesh_viewer.cpp:497-502 | the own-mesh loop from i returns the first mesh with triangles among the remaining own meshes and then the children |
| MeshViewer.ChildLoopIsFirst | examples/mesh_viewer.cpp:505-511 | the child loop from i returns the first mesh with triangles among the remaining children's subtrees |
| MeshViewer.ProcessNodePicksFirstNonEmpty | examples/mesh_viewer.cpp:495-512 | process_node returns the processed mesh of the first pre-order index that yields triangles, or the empty mesh when none does |
| MeshViewer.LoadMesh | examples/mesh_viewer.cpp:514-534 | no usable scene gives the empty mesh; otherwise the processed first mesh in pre-order that yields triangles; the result is empty or has triangles |
| MeshViewer.Acquire | littlevk.hpp:1307-1329 | the loop's acquisition is acquire_image as written, or with the out-of-date error caught |
| MeshViewer.Iterate | examples/mesh_viewer.cpp:322-436 | an iteration keeps the frame in flight at 0 or 1 |
| MeshViewer.RenderLoop | examples/mesh_viewer.cpp:321-436 | the loop's final state is the iteration, over the library as written or corrected, applied to each observation in turn, stopping when the window closes or an error escapes |
| MeshViewer.FrameIsParity | examples/mesh_viewer.cpp:381-435 | the frame in flight is always the parity of the frames completed |
| MeshViewer.AcquireOutOfDateEscapes | examples/mesh_viewer.cpp:361-366 | as written, an out-of-date swapchain at acquisition ends the loop with the out-of-date error escaping: nothing is submitted or resized |
| MeshViewer.AcquireResizeSkips | examples/mesh_viewer.cpp:361-366 | with the corrected acquire, a resize at acquisition submits nothing, keeps the frame and counts one resize |
| MeshViewer.PresentResizeCompletes | examples/mesh_viewer.cpp:429-435 | a resize at presentation comes after the frame's submission; the frame still flips and one resize is counted |
| MeshViewer.FailedAcquireStillSubmits | examples/mesh_viewer.cpp:361-435 | a timed-out or not-ready acquisition is not treated as a resize: the frame is submitted for image 0 and flips (the unbounded wait at littlevk.hpp:1315 means neither answer occurs) |
| MeshViewer.ClosedOnlyOnRequest | examples/mesh_viewer.cpp:325-327 | the loop ends closed only after an observation that the window should close |
| MeshViewer.HandledAcquires | examples/mesh_viewer.cpp:361-366 | the acquisition answers the loop survives: success, suboptimal, timeout and not-ready, and out-of-date exactly with the corrected acquire |
| MeshViewer.RunsToEnd | examples/mesh_viewer.cpp:322-436 | with no close request, acquisition answers the library handles (out-of-date only when corrected) and presentation answers among success, suboptimal and out-of-date, the loop consumes every observation and submits at most once per observation |
| ModelViewer.ReplaceBackslashes | examples/model_viewer.cpp:909 | every backslash becomes a slash and every other character is kept |
| ModelViewer.JoinPath | examples/model_viewer.cpp:910-911 | an absolute path or an empty directory gives the path itself; otherwise the directory, a separator unless it already ends in one, then the path |
| ModelViewer.ProcessedVertices | examples/model_viewer.cpp:851-876 | one vertex per imported vertex, each with its normal and texture coordinate exactly when the mesh has them |
| ModelViewer.ProcessMesh | examples/model_viewer.cpp:844-915 | process_mesh yields the vertices, the face stack's triangles, the material's diffuse colour, and the material's texture path under the directory, or no path |
| ModelViewer.ProcessedMeshShape | examples/model_viewer.cpp:844-915 | a processed mesh keeps every position, has normals and texture coordinates exactly when the mesh has them, whole triangles, its material's colour, and a path only when the material has a texture |
| ModelViewer.ProcessedAllDetermines | examples/model_viewer.cpp:917-936 | the list of kept mesh indices determines the model |
| ModelViewer.ProcessedAllAppend | examples/model_viewer.cpp:929-933 | two processed runs, joined, are the processed run of the joined indices |
| ModelViewer.KeptMeshesHaveTriangles | examples/model_viewer.cpp:924-925 | every mesh of the model has triangles |
| ModelViewer.OwnMeshStep | examples/model_viewer.cpp:922-925 | the next own mesh is appended exactly when it has triangles |
| ModelViewer.ChildStep | examples/model_viewer.cpp:930-932 | appending a child's yield extends the model by that child's pre-order meshes with triangles |
| ModelViewer.ProcessOwnMeshes | examples/model_viewer.cpp:921-926 | the node's own meshes that yield triangles, processed, in order |
| ModelViewer.AppendOwnMesh | examples/model_viewer.cpp:922-925 | one iteration keeps the mesh exactly when it yields triangles |
| ModelViewer.ProcessNode | examples/model_viewer.cpp:917-936 | process_node yields, in pre-order over the subtree, the processed mesh of every mesh index that yields triangles, and nothing else |
| ModelViewer.AppendChild | examples/model_viewer.cpp:930-932 | one iteration appends the child subtree's yield |
| ModelViewer.LoadModel | examples/model_viewer.cpp:938-959 | no usable scene gives the empty model; otherwise process_node's yield for the root, with texture paths under the file's directory |
| ModelViewer.TextureCache.constructor | examples/model_viewer.cpp:79 | the texture cache starts empty |
| ModelViewer.LoadTexture | examples/model_viewer.cpp:83-184 | a cached path returns its image and changes nothing; an unreadable file returns nothing and changes nothing; otherwise a new image is deferred onto the queue and cached, and the staging buffer and command pool are created and then destroyed, the pool first |
| ModelViewer.LoadCreated | examples/model_viewer.cpp:83-184 | a fresh load creates six objects when its command pool succeeds and five otherwise |
| ModelViewer.SourceOf | examples/model_viewer.cpp:213-246 | a mesh has no texture exactly when its path is empty or neither cached nor loadable, and loads it fresh exactly when the path is new and loads |
| ModelViewer.TextureCreated | examples/model_viewer.cpp:213-246 | the texture step creates something exactly when the mesh ends up with a texture |
| ModelViewer.TextureDestroyed | examples/model_viewer.cpp:83-184 | only a fresh load destroys anything |
| ModelViewer.TextureCreatedShape | examples/model_viewer.cpp:83-246 | the texture step's objects are numbered consecutively, the sampler last; a fresh load makes the image, its memory and view, the staging buffer and memory, and the pool exactly when it succeeds; it destroys exactly that pool (null when it failed) and then the staging buffer |
| ModelViewer.AttachTexture | examples/model_viewer.cpp:213-246 | a mesh gets a texture exactly when it names a path that is cached or loads; then its image and a new, last-created sampler; otherwise the null image and sampler; only a newly loaded image is queued and cached; the device creates and destroys exactly the texture step's objects for the path's source |
| ModelViewer.MakeVulkanMesh | examples/model_viewer.cpp:186-254 | vulkan_mesh creates exactly the vertex buffer and memory, the index buffer and memory, then the texture step's objects, and destroys exactly the texture load's pool and staging buffer; it queues both buffers, records the index count and colour, attaches the texture as above, leaves no descriptor set, and its proxy does not fail; its queue holds distinct new objects in creation order |
| ModelViewer.CreateMeshBuffers | examples/model_viewer.cpp:196-208 | the vertex buffer and then the index buffer are created, each buffer before its memory, nothing is destroyed, and both go onto the mesh's queue in that order |
| ModelViewer.MeshCreated | examples/model_viewer.cpp:186-254 | a mesh creates its four buffer objects and then the texture step's |
| ModelViewer.MeshCreatedShape | examples/model_viewer.cpp:196-246 | the first four objects of a mesh are its vertex buffer and memory and index buffer and memory, and the rest are the texture step's |
| ModelViewer.MeshCreatedAfter | examples/model_viewer.cpp:196-246 | creating the buffers and then the texture step's objects gives exactly the mesh's objects |
| ModelViewer.MeshRecordsOrdered | examples/model_viewer.cpp:193-215 | one mesh's queue holds its two buffers and, when newly loaded, its image, in creation order |
| ModelViewer.AllocateMeshes | examples/model_viewer.cpp:597-601 | one device mesh per processed mesh, with its index count and no texture unless it names one; the device creates and destroys exactly the allocation log of the model, each path loaded at most once; the deallocator keeps its earlier records and receives only new objects, each once, in creation order |
| ModelViewer.AllocateMesh | examples/model_viewer.cpp:598-601 | one iteration: the device log it leaves, followed by the log of the later meshes under the grown cache, is the log of the meshes from it on; its records extend the earlier ones in creation order |
| ModelViewer.Allocated | examples/model_viewer.cpp:597-601 | the log of a model creates at least the four buffer objects per mesh and destroys at most a pool and a staging buffer per mesh |
| ModelViewer.AllocatedStep | examples/model_viewer.cpp:597-601 | one mesh's objects, followed by the log of the later meshes with its path cached once loaded, are the log of the meshes from that one on |
| ModelViewer.AppendIncreasing | examples/model_viewer.cpp:597-601 | appending the records of newer objects keeps the records distinct and in creation order |
| ModelViewer.TextureWrite | examples/model_viewer.cpp:256-281 | the write binds the mesh's sampler and image view, read-only, as one combined image sampler at binding 0 of the mesh's set |
| ModelViewer.TextureWrites | examples/model_viewer.cpp:720-729 | at most one write per mesh |
| ModelViewer.TextureWritesAppend | examples/model_viewer.cpp:720-729 | the writes for a concatenation of meshes are those of each part, in order |
| ModelViewer.TextureWritesOnlyTextured | examples/model_viewer.cpp:720-729 | no write is made exactly when no mesh has a texture, and every write is that of a textured mesh |
| ModelViewer.LinkDescriptorSets | examples/model_viewer.cpp:719-729 | each textured mesh gets a newly allocated set, later meshes later sets, and the write that binds its texture; meshes without a texture are unchanged and get no write; exactly the textured meshes' sets are created, in mesh order, and nothing is destroyed |
| ModelViewer.DescriptorSets | examples/model_viewer.cpp:720-729 | at most one set per mesh, each a descriptor set |
| ModelViewer.DescriptorSetsAppend | examples/model_viewer.cpp:720-729 | the sets of a concatenation of meshes are those of each part, in order |
| ModelViewer.LinkedAppend | examples/model_viewer.cpp:720-729 | linking one more mesh with a newer set keeps every mesh linked and the sets in mesh order |
| ModelViewer.LinkMesh | examples/model_viewer.cpp:721-728 | a textured mesh gets the newly created set, exactly the one object created, and one write; any other mesh is unchanged, nothing is created and no write is made |
| ModelViewer.RecordDraws | examples/model_viewer.cpp:790-805 | one draw per mesh, in order: the textured pipeline with the mesh's set exactly for a textured mesh, the mesh's buffers and its index count |
| ModelViewer.Iterate | examples/model_viewer.cpp:738-826 | an iteration keeps the frame in flight at 0 or 1 |
| ModelViewer.RenderLoop | examples/model_viewer.cpp:737-826 | the loop's final state is the iteration applied to each observation in turn, stopping when the window closes |
| ModelViewer.RunAlternates | examples/model_viewer.cpp:776-824 | submissions keep alternating between the two frames, and at most one is made per observation |
| ModelViewer.FramesAlternate | examples/model_viewer.cpp:737-826 | from the start, the k-th submission uses frame k mod 2 |
| ModelViewer.SubmitsEveryIteration | examples/model_viewer.cpp:738-826 | without a close request every observation gives exactly one submission and the loop does not end closed |

## Left out

- Surface.Skeleton.Resize: the create info keeps the two queue family indices by value, so a resize reuses them. In the library, `swapchain()` stores the address of the `indices` argument (littlevk.hpp:792), which `skeletonize` passes as its local `queue_family` (littlevk.hpp:1491-1496); when the graphics and present families differ, the `createSwapchainKHR(swapchain.info)` of a later resize (littlevk.hpp:836) reads that address after the local is gone. Native memory is not modelled, so that read is not captured.
- Native Vulkan, GLFW, Assimp and stb_image calls are not executed. Their outcomes (success, result codes, image counts, loaded pixels, compiler logs, framebuffer sizes) are parameters of the model.
- Fence waits, `waitIdle`, queue submission, command recording and uploads are not modelled, because they have no effect the CPU-side code reads back. The model viewer's one-time upload in `load_texture` (command buffer, copy, layout transitions, submit) is reduced to creating and then destroying the pool and staging buffer.
- Floating point (vertex data, colours, camera, time, push constants) is carried as opaque values and never computed with.
- Logging and printing are left out, except where a contract says that a log happens.
- The `Skeleton::resize` loop that waits for a non-zero, stable framebuffer size is left out, because it only waits on window events; the model starts from the stable size.
- The four-argument `acquire_image` and `present_image` overloads and `make_present_syncronization` that the model viewer calls are not declared in `littlevk.hpp`. The model viewer's loop is modelled with one image index per iteration, and those overloads are not part of this model.
- Composite destruction (`destroy_buffer`, `destroy_image`, `destroy_present_syncronization`) is modelled as one destroyed entry per composite value, not as the individual native destroy calls.
- Memory type selection inside `buffer()` and `image()` is not modelled there; `find_memory_type` is modelled by itself.
- RenderPass.SubpassAssembler.Done: the subpass description `done()` appends holds the addresses of the subpass assembler's own reference lists and depth reference, which dangle once that temporary assembler is gone; the model copies the references' values, so it does not capture that the render pass is later built from dangling addresses.
- ModelViewer.AttachTexture: the sampler it creates is never destroyed (it is not deferred), which the model records as created and nowhere destroyed. Nothing checks for this leak.
- Deallocation.ComposedReturnProxy.Failure: littlevk's `ComposedReturnProxy(bool)` constructor is modelled only for `true`, since the library never builds one from `false`.
- Deallocation.DeferTwice: a proxy has no spent state, so nothing stops a value from being queued for destruction twice. The model states this behaviour of the code rather than a single-use rule.
- Allocation.Chain: the linked allocator hands each object to the deallocator as soon as it is made, not when the chain ends. The model follows the code.
- Descriptors.WriteFor: the array element an information record carries is ignored, and every write starts at array element 0, as the code does.
- Shader.FmtLines: the line counter is an `int` in the code; overflow past 2^31 - 1 lines is not modelled.
- Shader.Compile: glslang's parse, link and SPIR-V generation are not modelled; the compiler's log and the source it reports are parameters.
- Surface.Clamp: `std::clamp` with its lower bound above its upper bound is undefined behaviour; the model returns libstdc++'s answer, and the contracts that need ordered bounds assume them.
- Surface.ResizeExtent: limits of 2^31 or more convert to negative `int`s in the code; the model computes that conversion, but its range contracts are stated only for limits below 2^31.
- MeshViewer.LoadMesh and ModelViewer.LoadModel: the scene check uses the bitwise `|`, so a null scene is dereferenced before it is rejected, which is undefined behaviour. The model treats every unusable scene, the null one included, as rejected.
- MeshViewer.ProcessMesh: `process_mesh` reads a normal for every vertex without checking that the mesh has normals; the model requires them, as the importer is asked to generate them.
- The helper methods `ProcessOwnMeshes`, `AppendOwnMesh`, `AppendChild`, `AttachTexture`, `LinkMesh`, `LinkedAllocator.With`, `CreateSwapchainObjects` and `CreateEach` split one source function into loop bodies. They add no behaviour of their own.
- The render loops are modelled over a finite sequence of observations, one per iteration, rather than as unbounded loops.

## Findings

| source | as written | input that shows it | evidently intended | confidence | as-written member | corrected member |
|---|---|---|---|---|---|---|
| littlevk.hpp:1315-1319 | `acquireNextImageKHR` is called through Vulkan-Hpp's checking wrapper, which throws `OutOfDateKHRError` for `eErrorOutOfDateKHR`, so the branch that returns `eResize` is never reached and the error escapes `acquire_image` | the acquire returns `VK_ERROR_OUT_OF_DATE_KHR` (window resized); the mesh viewer's resize branch at examples/mesh_viewer.cpp:363-366 never runs and the error ends its loop (MeshViewer.AcquireOutOfDateEscapes; with the corrected acquire, MeshViewer.AcquireResizeSkips) | catch the out-of-date error, as `present_image` does, and report `eResize` | not executed | Presentation.AcquireImageAsWrittenNeverResizes | Presentation.AcquireImage |
| littlevk.hpp:756-760 | composite alpha falls back to pre-multiplied without checking that the surface supports it | a surface whose supported composite alpha is only `VK_COMPOSITE_ALPHA_INHERIT_BIT_KHR` (0x8) | pick a mode among the supported ones | not executed | Surface.CompositeAlphaAsWrittenUnsupported | Surface.PickCompositeAlphaSupported |
