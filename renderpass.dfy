/**
 * Render pass and framebuffer construction: attachment descriptions with
 * chainable setters and two presets, the render pass assembler with its
 * subpass assembler, and the framebuffer generator.
 *
 * A replayable description of an assembler session (`AssemblerCall`) and
 * its meaning (`Replay`) give the order-preservation properties something
 * to be stated against; `Assemble` drives the imperative assemblers through
 * such a session.
 */
module RenderPass {
  import opened Vk
  import opened Deallocation
  import opened Surface
  import opened Sequences

  datatype LoadOp = Load | Clear | DontCareLoad
  datatype StoreOp = Store | DontCareStore

  /** VkSampleCountFlagBits as its numeric value (1 for e1; 0 when value-initialised). */
  type SampleCount = nat

  /** littlevk::AttachmentDescription: the eight fields of a VkAttachmentDescription, each with its setter. */
  datatype AttachmentDescription = AttachmentDescription(
    format: Format,
    samples: SampleCount,
    loadOp: LoadOp,
    storeOp: StoreOp,
    stencilLoadOp: LoadOp,
    stencilStoreOp: StoreOp,
    initialLayout: ImageLayout,
    finalLayout: ImageLayout)
  {
    function WithFormat(f: Format): AttachmentDescription { this.(format := f) }
    function WithSamples(s: SampleCount): AttachmentDescription { this.(samples := s) }
    function WithLoadOp(op: LoadOp): AttachmentDescription { this.(loadOp := op) }
    function WithStoreOp(op: StoreOp): AttachmentDescription { this.(storeOp := op) }
    function WithStencilLoadOp(op: LoadOp): AttachmentDescription { this.(stencilLoadOp := op) }
    function WithStencilStoreOp(op: StoreOp): AttachmentDescription { this.(stencilStoreOp := op) }
    function WithInitialLayout(l: ImageLayout): AttachmentDescription { this.(initialLayout := l) }
    function WithFinalLayout(l: ImageLayout): AttachmentDescription { this.(finalLayout := l) }
  }

  /** `AttachmentDescription()`: every field value-initialised (the enumerators with value 0). */
  const Blank := AttachmentDescription(Undefined, 0, Load, Store, Load, Store, LayoutUndefined, LayoutUndefined)

  /** The setter chain of default_color_attachment, applied to any starting description. */
  function ColorChain(start: AttachmentDescription, swapchainFormat: Format): AttachmentDescription
  {
    start.WithFormat(swapchainFormat).WithSamples(1).WithLoadOp(Clear).WithStoreOp(Store)
      .WithStencilLoadOp(DontCareLoad).WithStencilStoreOp(DontCareStore)
      .WithInitialLayout(LayoutUndefined).WithFinalLayout(PresentSrcKHR)
  }

  /** The setter chain of default_depth_attachment, applied to any starting description. */
  function DepthChain(start: AttachmentDescription): AttachmentDescription
  {
    start.WithFormat(D32Sfloat).WithSamples(1).WithLoadOp(Clear).WithStoreOp(DontCareStore)
      .WithStencilLoadOp(DontCareLoad).WithStencilStoreOp(DontCareStore)
      .WithInitialLayout(LayoutUndefined).WithFinalLayout(DepthStencilAttachmentOptimal)
  }

  /**
   * default_color_attachment: a single-sample attachment in the swapchain's
   * format, cleared on load and stored, stencil ignored, from an undefined
   * layout to the presentation layout.
   */
  function DefaultColorAttachment(swapchainFormat: Format): (d: AttachmentDescription)
    ensures d == AttachmentDescription(swapchainFormat, 1, Clear, Store, DontCareLoad, DontCareStore, LayoutUndefined, PresentSrcKHR)
  {
    ColorChain(Blank, swapchainFormat)
  }

  /**
   * default_depth_attachment: a single-sample 32-bit float depth attachment,
   * cleared on load and not stored, stencil ignored, from an undefined layout
   * to the depth-stencil attachment layout.
   */
  function DefaultDepthAttachment(): (d: AttachmentDescription)
    ensures d == AttachmentDescription(D32Sfloat, 1, Clear, DontCareStore, DontCareLoad, DontCareStore, LayoutUndefined, DepthStencilAttachmentOptimal)
  {
    DepthChain(Blank)
  }

  /** Each preset chain sets all eight fields: what it starts from does not matter. */
  lemma PresetsSetEveryField(a: AttachmentDescription, b: AttachmentDescription, swapchainFormat: Format)
    ensures ColorChain(a, swapchainFormat) == ColorChain(b, swapchainFormat)
    ensures DepthChain(a) == DepthChain(b)
  {
  }

  datatype PipelineBindPoint = Graphics | Compute | RayTracing

  datatype AttachmentReference = AttachmentReference(attachment: nat, layout: ImageLayout)

  datatype SubpassDescription = SubpassDescription(
    bindpoint: PipelineBindPoint,
    inputs: seq<AttachmentReference>,
    colors: seq<AttachmentReference>,
    depth: Option<AttachmentReference>)

  /** A subpass dependency: source and destination subpass, and their stage masks. */
  datatype SubpassDependency = SubpassDependency(src: nat, dst: nat, srcStageMask: nat, dstStageMask: nat)

  datatype RenderPassCreateInfo = RenderPassCreateInfo(
    attachments: seq<AttachmentDescription>,
    subpasses: seq<SubpassDescription>,
    dependencies: seq<SubpassDependency>)

  /**
   * render_pass(): creates the render pass; a result other than success
   * yields a failed proxy.
   */
  method CreateRenderPass(device: Device, info: RenderPassCreateInfo, succeeds: bool) returns (p: DeviceReturnProxy)
    requires device.Valid()
    modifies device
    ensures device.Valid() && device.destroyed == old(device.destroyed)
    ensures p.failed <==> !succeeds
    ensures !succeeds ==> p == Failed(RenderPassObject) && device.created == old(device.created)
    ensures succeeds ==> p.value == Object(RenderPassObject, |old(device.created)| + 1)
    ensures succeeds ==> device.created == old(device.created) + [Native(RenderPassObject, p.value.handle)]
  {
    if !succeeds {
      return Failed(RenderPassObject);
    }
    var h := device.Create(RenderPassObject);
    p := Succeeded(Object(RenderPassObject, h));
  }

  class RenderPassAssembler {
    const device: Device
    const dal: Deallocator
    var subpasses: seq<SubpassDescription>
    var attachments: seq<AttachmentDescription>
    var dependencies: seq<SubpassDependency>

    constructor (device: Device, dal: Deallocator)
      ensures this.device == device && this.dal == dal
      ensures subpasses == [] && attachments == [] && dependencies == []
    {
      this.device := device;
      this.dal := dal;
      subpasses, attachments, dependencies := [], [], [];
    }

    /** The create info the assembler would hand to render_pass(). */
    function Info(): RenderPassCreateInfo
      reads this
    {
      RenderPassCreateInfo(attachments, subpasses, dependencies)
    }

    /** add_attachment: the k-th description added is attachment k. */
    method AddAttachment(description: AttachmentDescription)
      modifies this
      ensures attachments == old(attachments) + [description]
      ensures subpasses == old(subpasses) && dependencies == old(dependencies)
    {
      attachments := attachments + [description];
    }

    /** add_subpass: a fresh subpass assembler bound to this render pass assembler. */
    method AddSubpass(bindpoint: PipelineBindPoint) returns (s: SubpassAssembler)
      ensures fresh(s) && s.parent == this && s.bindpoint == bindpoint
      ensures s.inputs == [] && s.colors == [] && s.depth == None
    {
      s := new SubpassAssembler(this, bindpoint);
    }

    /** add_dependency: appended in call order. */
    method AddDependency(src: nat, dst: nat, srcStageMask: nat, dstStageMask: nat)
      modifies this
      ensures dependencies == old(dependencies) + [SubpassDependency(src, dst, srcStageMask, dstStageMask)]
      ensures subpasses == old(subpasses) && attachments == old(attachments)
    {
      dependencies := dependencies + [SubpassDependency(src, dst, srcStageMask, dstStageMask)];
    }

    /**
     * The conversion to vk::RenderPass: creates the render pass from the
     * accumulated attachments, subpasses and dependencies and unwraps it
     * into the deallocator, so a failed creation yields the null handle and
     * queues nothing.
     */
    method Build(succeeds: bool) returns (renderPass: Handle)
      requires device.Valid()
      modifies device, dal.deallocators
      ensures device.Valid() && device.destroyed == old(device.destroyed)
      ensures !succeeds ==> renderPass == NullHandle && dal.deallocators.records == old(dal.deallocators.records)
      ensures !succeeds ==> device.created == old(device.created)
      ensures succeeds ==> renderPass == |old(device.created)| + 1
      ensures succeeds ==> device.created == old(device.created) + [Native(RenderPassObject, renderPass)]
      ensures succeeds ==> dal.deallocators.records == old(dal.deallocators.records) + [Record(Object(RenderPassObject, renderPass))]
    {
      var p := CreateRenderPass(device, Info(), succeeds);
      var v := p.Unwrap(dal);
      renderPass := v.handle;
    }
  }

  class SubpassAssembler {
    const parent: RenderPassAssembler
    const bindpoint: PipelineBindPoint
    var inputs: seq<AttachmentReference>
    var colors: seq<AttachmentReference>
    var depth: Option<AttachmentReference>

    constructor (parent: RenderPassAssembler, bindpoint: PipelineBindPoint)
      ensures this.parent == parent && this.bindpoint == bindpoint
      ensures inputs == [] && colors == [] && depth == None
    {
      this.parent := parent;
      this.bindpoint := bindpoint;
      inputs, colors, depth := [], [], None;
    }

    /** The subpass description done() pushes. */
    function Description(): SubpassDescription
      reads this
    {
      SubpassDescription(bindpoint, inputs, colors, depth)
    }

    method InputAttachment(attachment: nat, layout: ImageLayout)
      modifies this
      ensures inputs == old(inputs) + [AttachmentReference(attachment, layout)]
      ensures colors == old(colors) && depth == old(depth)
    {
      inputs := inputs + [AttachmentReference(attachment, layout)];
    }

    method ColorAttachment(attachment: nat, layout: ImageLayout)
      modifies this
      ensures colors == old(colors) + [AttachmentReference(attachment, layout)]
      ensures inputs == old(inputs) && depth == old(depth)
    {
      colors := colors + [AttachmentReference(attachment, layout)];
    }

    /** depth_attachment: overwrites any earlier depth reference. */
    method DepthAttachment(attachment: nat, layout: ImageLayout)
      modifies this
      ensures depth == Some(AttachmentReference(attachment, layout))
      ensures inputs == old(inputs) && colors == old(colors)
    {
      depth := Some(AttachmentReference(attachment, layout));
    }

    /** done: appends this subpass to the parent's subpasses. */
    method Done()
      modifies parent
      ensures parent.subpasses == old(parent.subpasses) + [Description()]
      ensures parent.attachments == old(parent.attachments) && parent.dependencies == old(parent.dependencies)
    {
      parent.subpasses := parent.subpasses + [Description()];
    }
  }

  /** One call on a subpass assembler. */
  datatype SubpassCall =
    | InputCall(attachment: nat, layout: ImageLayout)
    | ColorCall(attachment: nat, layout: ImageLayout)
    | DepthCall(attachment: nat, layout: ImageLayout)

  /** One call on a render pass assembler; a subpass is opened, configured and closed with done(). */
  datatype AssemblerCall =
    | AddAttachmentCall(description: AttachmentDescription)
    | AddSubpassCall(bindpoint: PipelineBindPoint, calls: seq<SubpassCall>)
    | AddDependencyCall(dependency: SubpassDependency)

  /** The effect of one subpass call on the subpass being assembled. */
  function ApplySubpassCall(s: SubpassDescription, c: SubpassCall): SubpassDescription
  {
    match c
    case InputCall(a, l) => s.(inputs := s.inputs + [AttachmentReference(a, l)])
    case ColorCall(a, l) => s.(colors := s.colors + [AttachmentReference(a, l)])
    case DepthCall(a, l) => s.(depth := Some(AttachmentReference(a, l)))
  }

  /** The subpass a sequence of calls assembles, call by call. */
  function RunSubpass(bindpoint: PipelineBindPoint, calls: seq<SubpassCall>): SubpassDescription
  {
    if calls == [] then SubpassDescription(bindpoint, [], [], None)
    else ApplySubpassCall(RunSubpass(bindpoint, calls[..|calls| - 1]), calls[|calls| - 1])
  }

  /** The effect of one assembler call on the create info. */
  function ApplyCall(info: RenderPassCreateInfo, c: AssemblerCall): RenderPassCreateInfo
  {
    match c
    case AddAttachmentCall(d) => info.(attachments := info.attachments + [d])
    case AddSubpassCall(bp, calls) => info.(subpasses := info.subpasses + [RunSubpass(bp, calls)])
    case AddDependencyCall(dep) => info.(dependencies := info.dependencies + [dep])
  }

  /** The create info a session of calls assembles, call by call. */
  function Replay(script: seq<AssemblerCall>): RenderPassCreateInfo
  {
    if script == [] then RenderPassCreateInfo([], [], [])
    else ApplyCall(Replay(script[..|script| - 1]), script[|script| - 1])
  }

  /** The input references, in call order. */
  function InputsOf(calls: seq<SubpassCall>): seq<AttachmentReference>
  {
    if calls == [] then []
    else (if calls[0].InputCall? then [AttachmentReference(calls[0].attachment, calls[0].layout)] else []) + InputsOf(calls[1..])
  }

  /** The color references, in call order. */
  function ColorsOf(calls: seq<SubpassCall>): seq<AttachmentReference>
  {
    if calls == [] then []
    else (if calls[0].ColorCall? then [AttachmentReference(calls[0].attachment, calls[0].layout)] else []) + ColorsOf(calls[1..])
  }

  /** The reference of the last depth call, if any. */
  function LastDepth(calls: seq<SubpassCall>): Option<AttachmentReference>
  {
    if calls == [] then None
    else match LastDepth(calls[1..])
      case Some(r) => Some(r)
      case None => if calls[0].DepthCall? then Some(AttachmentReference(calls[0].attachment, calls[0].layout)) else None
  }

  lemma {:induction false} SubpassOfAppend(calls: seq<SubpassCall>, c: SubpassCall)
    ensures InputsOf(calls + [c]) == InputsOf(calls) + InputsOf([c])
    ensures ColorsOf(calls + [c]) == ColorsOf(calls) + ColorsOf([c])
    ensures LastDepth(calls + [c]) == if c.DepthCall? then Some(AttachmentReference(c.attachment, c.layout)) else LastDepth(calls)
  {
    if calls != [] {
      assert (calls + [c])[1..] == calls[1..] + [c];
      SubpassOfAppend(calls[1..], c);
    } else {
      assert calls + [c] == [c];
      assert [c][1..] == [];
    }
  }

  /**
   * A subpass holds its input and color references in the order they were
   * added, and the depth reference of the last depth call.
   */
  lemma {:induction false} RunSubpassOrder(bindpoint: PipelineBindPoint, calls: seq<SubpassCall>)
    ensures RunSubpass(bindpoint, calls) == SubpassDescription(bindpoint, InputsOf(calls), ColorsOf(calls), LastDepth(calls))
  {
    if calls != [] {
      var init, c := calls[..|calls| - 1], calls[|calls| - 1];
      assert calls == init + [c];
      RunSubpassOrder(bindpoint, init);
      SubpassOfAppend(init, c);
      assert [c][1..] == [];
    }
  }

  /** The attachment descriptions added, in call order. */
  function AttachmentsOf(script: seq<AssemblerCall>): seq<AttachmentDescription>
  {
    if script == [] then []
    else (if script[0].AddAttachmentCall? then [script[0].description] else []) + AttachmentsOf(script[1..])
  }

  /** The subpasses closed, in call order. */
  function SubpassesOf(script: seq<AssemblerCall>): seq<SubpassDescription>
  {
    if script == [] then []
    else (if script[0].AddSubpassCall? then [RunSubpass(script[0].bindpoint, script[0].calls)] else []) + SubpassesOf(script[1..])
  }

  /** The dependencies added, in call order. */
  function DependenciesOf(script: seq<AssemblerCall>): seq<SubpassDependency>
  {
    if script == [] then []
    else (if script[0].AddDependencyCall? then [script[0].dependency] else []) + DependenciesOf(script[1..])
  }

  lemma {:induction false} ScriptOfAppend(script: seq<AssemblerCall>, c: AssemblerCall)
    ensures AttachmentsOf(script + [c]) == AttachmentsOf(script) + AttachmentsOf([c])
    ensures SubpassesOf(script + [c]) == SubpassesOf(script) + SubpassesOf([c])
    ensures DependenciesOf(script + [c]) == DependenciesOf(script) + DependenciesOf([c])
  {
    if script != [] {
      var h := script[0];
      assert (script + [c])[0] == h && (script + [c])[1..] == script[1..] + [c];
      ScriptOfAppend(script[1..], c);
      AppendAssoc(if h.AddAttachmentCall? then [h.description] else [], AttachmentsOf(script[1..]), AttachmentsOf([c]));
      AppendAssoc(if h.AddSubpassCall? then [RunSubpass(h.bindpoint, h.calls)] else [], SubpassesOf(script[1..]), SubpassesOf([c]));
      AppendAssoc(if h.AddDependencyCall? then [h.dependency] else [], DependenciesOf(script[1..]), DependenciesOf([c]));
    } else {
      assert script + [c] == [c];
    }
  }

  /**
   * The assembled render pass lists the attachments, the subpasses and the
   * dependencies each in the order they were added, whatever the
   * interleaving of the three kinds of call.
   */
  lemma {:induction false} ReplayOrder(script: seq<AssemblerCall>)
    ensures Replay(script) == RenderPassCreateInfo(AttachmentsOf(script), SubpassesOf(script), DependenciesOf(script))
  {
    if script != [] {
      var init, c := script[..|script| - 1], script[|script| - 1];
      assert script == init + [c];
      ReplayOrder(init);
      ScriptOfAppend(init, c);
      assert [c][1..] == [];
    }
  }

  /** Runs one subpass's calls on a subpass assembler. */
  method RunSubpassCalls(s: SubpassAssembler, calls: seq<SubpassCall>)
    requires s.inputs == [] && s.colors == [] && s.depth == None
    modifies s
    ensures s.Description() == RunSubpass(s.bindpoint, calls)
  {
    var i := 0;
    while i < |calls|
      invariant 0 <= i <= |calls|
      invariant s.Description() == RunSubpass(s.bindpoint, calls[..i])
    {
      assert calls[..i + 1][..i] == calls[..i];
      match calls[i] {
        case InputCall(a, l) => s.InputAttachment(a, l);
        case ColorCall(a, l) => s.ColorAttachment(a, l);
        case DepthCall(a, l) => s.DepthAttachment(a, l);
      }
      i := i + 1;
    }
    assert calls[..i] == calls;
  }

  /**
   * Drives a fresh render pass assembler through a session of calls and
   * returns the create info it would build from.
   */
  method Assemble(device: Device, dal: Deallocator, script: seq<AssemblerCall>) returns (info: RenderPassCreateInfo)
    ensures info == Replay(script)
    ensures info.attachments == AttachmentsOf(script) && info.subpasses == SubpassesOf(script)
  {
    var rpa := new RenderPassAssembler(device, dal);
    var i := 0;
    while i < |script|
      invariant 0 <= i <= |script|
      invariant fresh(rpa) && rpa.Info() == Replay(script[..i])
    {
      assert script[..i + 1][..i] == script[..i];
      match script[i] {
        case AddAttachmentCall(d) =>
          rpa.AddAttachment(d);
        case AddSubpassCall(bp, calls) =>
          var s := rpa.AddSubpass(bp);
          RunSubpassCalls(s, calls);
          s.Done();
        case AddDependencyCall(dep) =>
          rpa.AddDependency(dep.src, dep.dst, dep.srcStageMask, dep.dstStageMask);
      }
      i := i + 1;
    }
    assert script[..i] == script;
    info := rpa.Info();
    ReplayOrder(script);
  }

  /** FramebufferCreateInfo as the generator fills it in. */
  datatype FramebufferCreateInfo = FramebufferCreateInfo(renderPass: Handle, attachments: seq<Handle>, width: nat, height: nat, layers: nat)

  /** Accumulates one framebuffer per call to add, each queued for destruction on the deallocator. */
  class FramebufferGenerator {
    const device: Device
    const renderPass: Handle
    const extent: Extent2D
    const dal: Deallocator
    var framebuffers: seq<Handle>

    constructor (device: Device, renderPass: Handle, extent: Extent2D, dal: Deallocator)
      ensures this.device == device && this.renderPass == renderPass && this.extent == extent && this.dal == dal
      ensures framebuffers == []
    {
      this.device := device;
      this.renderPass := renderPass;
      this.extent := extent;
      this.dal := dal;
      framebuffers := [];
    }

    /**
     * add: creates a framebuffer over the given views, for the generator's
     * render pass and extent with one layer, queues its destruction and
     * appends it to the list; info is the create info it was made with.
     */
    method Add(views: seq<Handle>) returns (info: FramebufferCreateInfo)
      requires device.Valid()
      modifies this, device, dal.deallocators
      ensures info.renderPass == renderPass && info.attachments == views
      ensures info.width == extent.width && info.height == extent.height && info.layers == 1
      ensures device.Valid() && device.destroyed == old(device.destroyed)
      ensures framebuffers == old(framebuffers) + [|old(device.created)| + 1]
      ensures device.created == old(device.created) + [Native(FramebufferObject, framebuffers[|framebuffers| - 1])]
      ensures dal.deallocators.records == old(dal.deallocators.records) + [Record(Object(FramebufferObject, framebuffers[|framebuffers| - 1]))]
    {
      info := FramebufferCreateInfo(renderPass, views, extent.width, extent.height, 1);
      var h := device.Create(FramebufferObject);
      var p := Succeeded(Object(FramebufferObject, h));
      var v := p.Unwrap(dal);
      framebuffers := framebuffers + [v.handle];
    }

    /** unpack: hands back every framebuffer added so far and forgets them. */
    method Unpack() returns (fbs: seq<Handle>)
      modifies this
      ensures fbs == old(framebuffers) && framebuffers == []
    {
      fbs := framebuffers;
      framebuffers := [];
    }
  }
}
