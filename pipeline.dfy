/**
 * Graphics pipelines: the vertex layout computed from a list of attribute
 * types, the shader stage bundle, the fixed-function state pipeline::compile
 * fills in, and the pipeline assembler that accumulates bindings and push
 * constants and compiles the descriptor set layout, the pipeline layout and
 * the pipeline.
 */
module Pipelines {
  import opened Vk
  import opened Deallocation
  import opened Surface
  import opened Shader

  /**
   * The attribute types a vertex layout is written with: the library's four
   * float tuples and, with the GLM translator enabled, glm::vec2/3/4.
   */
  datatype VertexType = R32f | Rg32f | Rgb32f | Rgba32f | Vec2 | Vec3 | Vec4

  /** sizeof of each attribute type, in bytes. */
  function SizeOf(t: VertexType): nat
  {
    match t
    case R32f => 4
    case Rg32f => 8
    case Rgb32f => 12
    case Rgba32f => 16
    case Vec2 => 8
    case Vec3 => 12
    case Vec4 => 16
  }

  /**
   * type_translator: the vertex format of each type. r32f has no
   * specialisation, so a layout that uses it does not compile.
   */
  function TranslatorFormat(t: VertexType): (f: Option<Format>)
    ensures f.None? <==> t == R32f
    ensures f.Some? ==> f.value in {R32G32Sfloat, R32G32B32Sfloat, R32G32B32A32Sfloat}
  {
    match t
    case R32f => None
    case Rg32f => Some(R32G32Sfloat)
    case Rgb32f => Some(R32G32B32Sfloat)
    case Rgba32f => Some(R32G32B32A32Sfloat)
    case Vec2 => Some(R32G32Sfloat)
    case Vec3 => Some(R32G32B32Sfloat)
    case Vec4 => Some(R32G32B32A32Sfloat)
  }

  predicate Translatable(ts: seq<VertexType>)
  {
    forall i :: 0 <= i < |ts| ==> TranslatorFormat(ts[i]).Some?
  }

  /** The total size of the types, accumulated from the last one backwards. */
  function Sum(ts: seq<VertexType>): nat
  {
    if ts == [] then 0 else Sum(ts[..|ts| - 1]) + SizeOf(ts[|ts| - 1])
  }

  lemma {:induction false} SumCons(t: VertexType, ts: seq<VertexType>)
    ensures Sum([t] + ts) == SizeOf(t) + Sum(ts)
    decreases |ts|
  {
    if ts != [] {
      var init := ts[..|ts| - 1];
      assert ([t] + ts)[..|ts|] == [t] + init;
      SumCons(t, init);
    }
  }

  lemma SumPrefixMonotone(ts: seq<VertexType>, i: nat, j: nat)
    requires i <= j <= |ts|
    ensures Sum(ts[..i]) <= Sum(ts[..j])
    decreases j - i
  {
    if i < j {
      assert ts[..j][..j - 1] == ts[..j - 1];
      SumPrefixMonotone(ts, i, j - 1);
    }
  }

  /** sizeof_all: the sizes added up from the first type on; it needs at least one type. */
  function SizeofAll(ts: seq<VertexType>): (n: nat)
    requires |ts| >= 1
    ensures n == Sum(ts)
  {
    if |ts| == 1 then
      assert ts == [ts[0]] + [];
      SumCons(ts[0], []);
      SizeOf(ts[0])
    else
      assert ts == [ts[0]] + ts[1..];
      SumCons(ts[0], ts[1..]);
      SizeOf(ts[0]) + SizeofAll(ts[1..])
  }

  datatype VertexAttribute = VertexAttribute(location: nat, binding: nat, format: Format, offset: nat)

  /** attribute_for: one attribute in binding 0. */
  function AttributeFor(index: nat, offset: nat, t: VertexType): VertexAttribute
    requires TranslatorFormat(t).Some?
  {
    VertexAttribute(index, 0, TranslatorFormat(t).value, offset)
  }

  /**
   * attributes_for: the first type's attribute at (index, offset), then the
   * rest from index + 1 and offset + sizeof(first).
   */
  function AttributesFor(index: nat, offset: nat, ts: seq<VertexType>): (attrs: seq<VertexAttribute>)
    requires |ts| >= 1 && Translatable(ts)
    ensures |attrs| == |ts|
    ensures attrs[0] == AttributeFor(index, offset, ts[0])
    decreases |ts|
  {
    if |ts| == 1 then [AttributeFor(index, offset, ts[0])]
    else [AttributeFor(index, offset, ts[0])] + AttributesFor(index + 1, offset + SizeOf(ts[0]), ts[1..])
  }

  /**
   * Attribute i sits at location index + i in binding 0, with its type's
   * format, at the starting offset plus the sizes of the types before it.
   */
  lemma {:induction false} AttributeAt(index: nat, offset: nat, ts: seq<VertexType>, i: nat)
    requires |ts| >= 1 && Translatable(ts) && i < |ts|
    ensures AttributesFor(index, offset, ts)[i] == VertexAttribute(index + i, 0, TranslatorFormat(ts[i]).value, offset + Sum(ts[..i]))
    decreases i
  {
    if i == 0 {
      assert ts[..0] == [];
    } else {
      var rest := ts[1..];
      AttributeAt(index + 1, offset + SizeOf(ts[0]), rest, i - 1);
      assert ts[..i] == [ts[0]] + rest[..i - 1];
      SumCons(ts[0], rest[..i - 1]);
    }
  }

  lemma AttributesForLayout(index: nat, offset: nat, ts: seq<VertexType>)
    requires |ts| >= 1 && Translatable(ts)
    ensures forall i :: 0 <= i < |ts| ==>
      AttributesFor(index, offset, ts)[i] == VertexAttribute(index + i, 0, TranslatorFormat(ts[i]).value, offset + Sum(ts[..i]))
  {
    forall i | 0 <= i < |ts|
      ensures AttributesFor(index, offset, ts)[i] == VertexAttribute(index + i, 0, TranslatorFormat(ts[i]).value, offset + Sum(ts[..i]))
    {
      AttributeAt(index, offset, ts, i);
    }
  }

  datatype VertexBinding = VertexBinding(binding: nat, stride: nat, perInstance: bool)

  datatype VertexLayout = VertexLayout(binding: VertexBinding, attributes: seq<VertexAttribute>)

  /** VertexLayout<Args...>: binding 0, per-vertex, stride sizeof_all; the attributes from location 0 and offset 0. */
  function Layout(ts: seq<VertexType>): (l: VertexLayout)
    requires |ts| >= 1 && Translatable(ts)
    ensures l.binding == VertexBinding(0, Sum(ts), false) && |l.attributes| == |ts|
    ensures l.attributes[0] == VertexAttribute(0, 0, TranslatorFormat(ts[0]).value, 0)
  {
    VertexLayout(VertexBinding(0, SizeofAll(ts), false), AttributesFor(0, 0, ts))
  }

  /**
   * A vertex layout packs its attributes: attribute i is at location i with
   * the offset of the sizes before it, each attribute ends where the next
   * begins, and the last one ends at the stride, which is the sum of all
   * sizes.
   */
  lemma LayoutPacked(ts: seq<VertexType>)
    requires |ts| >= 1 && Translatable(ts)
    ensures Layout(ts).binding == VertexBinding(0, Sum(ts), false)
    ensures |Layout(ts).attributes| == |ts|
    ensures forall i :: 0 <= i < |ts| ==>
      Layout(ts).attributes[i] == VertexAttribute(i, 0, TranslatorFormat(ts[i]).value, Sum(ts[..i]))
    ensures forall i :: 0 <= i < |ts| - 1 ==>
      Layout(ts).attributes[i].offset + SizeOf(ts[i]) == Layout(ts).attributes[i + 1].offset
    ensures Layout(ts).attributes[|ts| - 1].offset + SizeOf(ts[|ts| - 1]) == Layout(ts).binding.stride
    ensures forall i :: 0 <= i < |ts| ==> Layout(ts).attributes[i].offset + SizeOf(ts[i]) <= Layout(ts).binding.stride
  {
    var attrs := AttributesFor(0, 0, ts);
    assert Layout(ts) == VertexLayout(VertexBinding(0, Sum(ts), false), attrs);
    AttributesForLayout(0, 0, ts);
    forall i | 0 <= i < |ts|
      ensures attrs[i].offset + SizeOf(ts[i]) == Sum(ts[..i + 1]) <= Sum(ts)
    {
      PrefixEnds(ts, i);
    }
    forall i | 0 <= i < |ts| - 1
      ensures attrs[i].offset + SizeOf(ts[i]) == attrs[i + 1].offset
    {
      PrefixEnds(ts, i);
    }
    assert ts[..|ts|] == ts;
  }

  /** The type at i ends where the prefix through it ends, within the whole. */
  lemma PrefixEnds(ts: seq<VertexType>, i: nat)
    requires i < |ts|
    ensures Sum(ts[..i]) + SizeOf(ts[i]) == Sum(ts[..i + 1]) <= Sum(ts)
  {
    assert ts[..i + 1][..i] == ts[..i];
    SumPrefixMonotone(ts, i + 1, |ts|);
    assert ts[..|ts|] == ts;
  }

  /** A configured shader stage: PipelineShaderStageCreateInfo. */
  datatype ShaderStageInfo = ShaderStageInfo(stage: ShaderStage, shaderModule: Handle, entry: string)

  /** ShaderStageBundle: the stages attached so far, in order. */
  class ShaderStageBundle {
    const device: Device
    const dal: Deallocator
    var stages: seq<ShaderStageInfo>

    constructor (device: Device, dal: Deallocator)
      ensures this.device == device && this.dal == dal && stages == []
    {
      this.device := device;
      this.dal := dal;
      stages := [];
    }

    /**
     * attach: compiles the GLSL source (the compiler's report on it is
     * `out`) and unwraps the module into the deallocator, then appends the
     * stage with entry point "main"; a failed compilation still appends the
     * stage, with the null module.
     */
    method Attach(stage: ShaderStage, out: CompileOut)
      requires device.Valid()
      modifies this, device, dal.deallocators
      ensures device.Valid() && device.destroyed == old(device.destroyed)
      ensures |stages| == |old(stages)| + 1 && stages[..|old(stages)|] == old(stages)
      ensures stages[|stages| - 1].stage == stage && stages[|stages| - 1].entry == "main"
      ensures out.log != "" ==> stages[|stages| - 1].shaderModule == NullHandle
      ensures out.log != "" ==> device.created == old(device.created) && dal.deallocators.records == old(dal.deallocators.records)
      ensures out.log == "" ==> stages[|stages| - 1].shaderModule == |old(device.created)| + 1
      ensures out.log == "" ==> device.created == old(device.created) + [Native(ShaderModuleObject, stages[|stages| - 1].shaderModule)]
      ensures out.log == "" ==> dal.deallocators.records == old(dal.deallocators.records) + [Record(Object(ShaderModuleObject, stages[|stages| - 1].shaderModule))]
    {
      var p, message := Compile(device, out);
      var v := p.Unwrap(dal);
      stages := stages + [ShaderStageInfo(stage, v.handle, "main")];
    }
  }

  datatype PolygonMode = Fill | LineMode | PointMode
  datatype CullMode = CullNone | CullFront | CullBack | CullFrontAndBack
  datatype DynamicState = DynamicViewport | DynamicScissor

  /** pipeline::GraphicsCreateInfo. */
  datatype GraphicsCreateInfo = GraphicsCreateInfo(
    vertexBinding: Option<VertexBinding>,
    vertexAttributes: Option<seq<VertexAttribute>>,
    shaderStages: seq<ShaderStageInfo>,
    extent: Extent2D,
    fillMode: PolygonMode,
    cullMode: CullMode,
    dynamicViewport: bool,
    alphaBlend: bool,
    pipelineLayout: Handle,
    renderPass: Handle,
    subpass: nat)

  /** The viewport state: how many viewports and scissors, and the fixed ones when not dynamic. */
  datatype ViewportState = ViewportState(viewportCount: nat, scissorCount: nat, viewport: Option<Extent2D>, scissor: Option<Extent2D>)

  /** The colour blend attachment: enabled or not, and (source, destination) colour factors. */
  datatype BlendFactor = One | Zero | SrcAlpha | OneMinusSrcAlpha
  datatype ColorBlend = ColorBlend(enabled: bool, srcColor: BlendFactor, dstColor: BlendFactor)

  /** The parts of VkGraphicsPipelineCreateInfo that pipeline::compile chooses. */
  datatype FixedFunctionState = FixedFunctionState(
    vertexInput: Option<(VertexBinding, seq<VertexAttribute>)>,
    viewport: ViewportState,
    dynamicStates: seq<DynamicState>,
    fillMode: PolygonMode,
    cullMode: CullMode,
    blend: ColorBlend,
    depthTest: bool,
    depthWrite: bool)

  /**
   * The fixed-function choices of pipeline::compile: vertex input only when
   * both the binding and the attributes are given; either dynamic viewport
   * and scissor, or one fixed viewport and scissor covering the extent;
   * alpha blending (source alpha over one minus source alpha) only when
   * asked for; depth test and write always on.
   */
  function PipelineState(info: GraphicsCreateInfo): (s: FixedFunctionState)
    ensures s.vertexInput.Some? <==> info.vertexBinding.Some? && info.vertexAttributes.Some?
    ensures s.viewport.viewportCount == 1 && s.viewport.scissorCount == 1
    ensures info.dynamicViewport ==> s.dynamicStates == [DynamicViewport, DynamicScissor] && s.viewport.viewport.None? && s.viewport.scissor.None?
    ensures !info.dynamicViewport ==> s.dynamicStates == [] && s.viewport.viewport == Some(info.extent) && s.viewport.scissor == Some(info.extent)
    ensures s.blend.enabled <==> info.alphaBlend
    ensures s.blend.enabled ==> s.blend.srcColor == SrcAlpha && s.blend.dstColor == OneMinusSrcAlpha
    ensures !s.blend.enabled ==> s.blend.srcColor == One && s.blend.dstColor == Zero
    ensures s.fillMode == info.fillMode && s.cullMode == info.cullMode && s.depthTest && s.depthWrite
  {
    FixedFunctionState(
      if info.vertexBinding.Some? && info.vertexAttributes.Some? then Some((info.vertexBinding.value, info.vertexAttributes.value)) else None,
      if info.dynamicViewport then ViewportState(1, 1, None, None) else ViewportState(1, 1, Some(info.extent), Some(info.extent)),
      if info.dynamicViewport then [DynamicViewport, DynamicScissor] else [],
      info.fillMode,
      info.cullMode,
      if info.alphaBlend then ColorBlend(true, SrcAlpha, OneMinusSrcAlpha) else ColorBlend(false, One, Zero),
      true,
      true)
  }

  /**
   * pipeline::compile: creates the pipeline with the fixed-function state it
   * fills in from the create info (a creation error is thrown by the native
   * wrapper, so the proxy never fails) and reports whether it logged an
   * empty stage list.
   */
  method CompilePipeline(device: Device, info: GraphicsCreateInfo) returns (p: DeviceReturnProxy, state: FixedFunctionState, warned: bool)
    requires device.Valid()
    modifies device
    ensures device.Valid() && device.destroyed == old(device.destroyed)
    ensures warned <==> info.shaderStages == []
    ensures state == PipelineState(info)
    ensures p == Succeeded(Object(PipelineObject, |old(device.created)| + 1))
    ensures device.created == old(device.created) + [Native(PipelineObject, p.value.handle)]
  {
    warned := info.shaderStages == [];
    state := PipelineState(info);
    var h := device.Create(PipelineObject);
    p := Succeeded(Object(PipelineObject, h));
  }

  datatype DescriptorSetLayoutBinding = DescriptorSetLayoutBinding(binding: nat, descriptorType: DescriptorType, count: nat, stage: ShaderStage)

  datatype PushConstantRange = PushConstantRange(stage: ShaderStage, offset: nat, size: nat)

  datatype PipelineLayoutCreateInfo = PipelineLayoutCreateInfo(setLayouts: seq<Handle>, pushConstants: seq<PushConstantRange>)

  /** The pipeline assembler's result: the pipeline, its layout and its descriptor set layout if any. */
  datatype Pipeline = Pipeline(handle: Handle, layout: Handle, dsl: Option<Handle>)

  /** A descriptor_set_layout() or pipeline_layout() creation: fails when the native result is not success. */
  method CreateObject(device: Device, kind: Kind, succeeds: bool) returns (p: DeviceReturnProxy)
    requires device.Valid()
    modifies device
    ensures device.Valid() && device.destroyed == old(device.destroyed)
    ensures !succeeds ==> p == Failed(kind) && device.created == old(device.created)
    ensures succeeds ==> p == Succeeded(Object(kind, |old(device.created)| + 1))
    ensures succeeds ==> device.created == old(device.created) + [Native(kind, p.value.handle)]
  {
    if !succeeds {
      return Failed(kind);
    }
    var h := device.Create(kind);
    p := Succeeded(Object(kind, h));
  }

  class PipelineAssembler {
    const device: Device
    const dal: Deallocator
    var renderPass: Handle
    var subpass: nat
    var vertexBinding: VertexBinding
    var vertexAttributes: seq<VertexAttribute>
    var stages: seq<ShaderStageInfo>
    var dslBindings: seq<DescriptorSetLayoutBinding>
    var pushConstants: seq<PushConstantRange>

    /** A new assembler: subpass 0, a default binding, and nothing accumulated. */
    constructor (device: Device, dal: Deallocator)
      ensures this.device == device && this.dal == dal
      ensures renderPass == NullHandle && subpass == 0 && vertexBinding == VertexBinding(0, 0, false)
      ensures vertexAttributes == [] && stages == [] && dslBindings == [] && pushConstants == []
    {
      this.device := device;
      this.dal := dal;
      renderPass, subpass := NullHandle, 0;
      vertexBinding, vertexAttributes := VertexBinding(0, 0, false), [];
      stages, dslBindings, pushConstants := [], [], [];
    }

    method WithRenderPass(renderPass: Handle, subpass: nat)
      modifies this
      ensures this.renderPass == renderPass && this.subpass == subpass
      ensures vertexBinding == old(vertexBinding) && vertexAttributes == old(vertexAttributes) && stages == old(stages)
      ensures dslBindings == old(dslBindings) && pushConstants == old(pushConstants)
    {
      this.renderPass := renderPass;
      this.subpass := subpass;
    }

    /** with_vertex_layout: the layout's binding and attributes replace the current ones. */
    method WithVertexLayout(ts: seq<VertexType>)
      requires |ts| >= 1 && Translatable(ts)
      modifies this
      ensures vertexBinding == Layout(ts).binding && vertexAttributes == Layout(ts).attributes
      ensures renderPass == old(renderPass) && subpass == old(subpass) && stages == old(stages)
      ensures dslBindings == old(dslBindings) && pushConstants == old(pushConstants)
    {
      var layout := Layout(ts);
      vertexBinding := layout.binding;
      vertexAttributes := layout.attributes;
    }

    /** with_shader_bundle: a copy of the bundle's stages replaces the current ones. */
    method WithShaderBundle(bundle: ShaderStageBundle)
      modifies this
      ensures stages == bundle.stages
      ensures renderPass == old(renderPass) && subpass == old(subpass)
      ensures vertexBinding == old(vertexBinding) && vertexAttributes == old(vertexAttributes)
      ensures dslBindings == old(dslBindings) && pushConstants == old(pushConstants)
    {
      stages := bundle.stages;
    }

    method WithDslBinding(binding: nat, descriptorType: DescriptorType, count: nat, stage: ShaderStage)
      modifies this
      ensures dslBindings == old(dslBindings) + [DescriptorSetLayoutBinding(binding, descriptorType, count, stage)]
      ensures renderPass == old(renderPass) && subpass == old(subpass) && stages == old(stages)
      ensures vertexBinding == old(vertexBinding) && vertexAttributes == old(vertexAttributes) && pushConstants == old(pushConstants)
    {
      dslBindings := dslBindings + [DescriptorSetLayoutBinding(binding, descriptorType, count, stage)];
    }

    /** with_dsl_bindings: the bindings appended one by one, in order. */
    method WithDslBindings(bindings: seq<DescriptorSetLayoutBinding>)
      modifies this
      ensures dslBindings == old(dslBindings) + bindings
      ensures renderPass == old(renderPass) && subpass == old(subpass) && stages == old(stages)
      ensures vertexBinding == old(vertexBinding) && vertexAttributes == old(vertexAttributes) && pushConstants == old(pushConstants)
    {
      var i := 0;
      while i < |bindings|
        invariant 0 <= i <= |bindings|
        invariant dslBindings == old(dslBindings) + bindings[..i]
        invariant renderPass == old(renderPass) && subpass == old(subpass) && stages == old(stages)
        invariant vertexBinding == old(vertexBinding) && vertexAttributes == old(vertexAttributes) && pushConstants == old(pushConstants)
      {
        dslBindings := dslBindings + [bindings[i]];
        assert bindings[..i + 1] == bindings[..i] + [bindings[i]];
        i := i + 1;
      }
      assert bindings[..i] == bindings;
    }

    /** with_push_constant<T>: a range for the stage at offset 0 spanning sizeof(T) bytes. */
    method WithPushConstant(stage: ShaderStage, size: nat)
      modifies this
      ensures pushConstants == old(pushConstants) + [PushConstantRange(stage, 0, size)]
      ensures renderPass == old(renderPass) && subpass == old(subpass) && stages == old(stages)
      ensures vertexBinding == old(vertexBinding) && vertexAttributes == old(vertexAttributes) && dslBindings == old(dslBindings)
    {
      pushConstants := pushConstants + [PushConstantRange(stage, 0, size)];
    }

    /**
     * The first half of compile: a descriptor set layout when bindings were
     * given, then the pipeline layout listing it and the push-constant
     * ranges; each is unwrapped into the deallocator as it is made, and a
     * failed creation leaves the null handle in its place.
     */
    method CreateLayouts(dslSucceeds: bool, layoutSucceeds: bool)
      returns (dsl: Option<Handle>, layout: Handle, layoutInfo: PipelineLayoutCreateInfo)
      requires device.Valid()
      modifies device, dal.deallocators
      ensures device.Valid() && device.destroyed == old(device.destroyed)
      ensures dsl.Some? <==> dslBindings != []
      ensures layoutInfo == PipelineLayoutCreateInfo(if dsl.Some? then [dsl.value] else [], pushConstants)
      ensures dsl.Some? && !dslSucceeds ==> dsl.value == NullHandle
      ensures !layoutSucceeds ==> layout == NullHandle
      ensures device.created == old(device.created)
        + (if dsl.Some? && dslSucceeds then [Native(DescriptorSetLayoutObject, dsl.value)] else [])
        + (if layoutSucceeds then [Native(PipelineLayoutObject, layout)] else [])
      ensures dal.deallocators.records == old(dal.deallocators.records)
        + (if dsl.Some? && dslSucceeds then [Record(Object(DescriptorSetLayoutObject, dsl.value))] else [])
        + (if layoutSucceeds then [Record(Object(PipelineLayoutObject, layout))] else [])
    {
      var dsls: seq<Handle> := [];
      dsl := None;
      if dslBindings != [] {
        var p := CreateObject(device, DescriptorSetLayoutObject, dslSucceeds);
        var v := p.Unwrap(dal);
        dsls := [v.handle];
        dsl := Some(v.handle);
      }
      layoutInfo := PipelineLayoutCreateInfo(dsls, pushConstants);
      var lp := CreateObject(device, PipelineLayoutObject, layoutSucceeds);
      var l := lp.Unwrap(dal);
      layout := l.handle;
    }

    /**
     * compile: a descriptor set layout is created (and set on the result)
     * exactly when bindings were given; the pipeline layout lists it, if
     * any, and the push-constant ranges in order; the pipeline uses the
     * accumulated state with a dynamic viewport, filled polygons and no
     * culling, and is created with that fixed-function state. Each object is unwrapped into the deallocator as it is made:
     * set layout, pipeline layout, pipeline. A failed creation leaves the
     * null handle in its place.
     */
    method Compile(windowExtent: Extent2D, dslSucceeds: bool, layoutSucceeds: bool)
      returns (pipeline: Pipeline, layoutInfo: PipelineLayoutCreateInfo, info: GraphicsCreateInfo, state: FixedFunctionState)
      requires device.Valid()
      modifies device, dal.deallocators
      ensures device.Valid() && device.destroyed == old(device.destroyed)
      ensures pipeline.dsl.Some? <==> dslBindings != []
      ensures layoutInfo.setLayouts == (if pipeline.dsl.Some? then [pipeline.dsl.value] else [])
      ensures pipeline.dsl.Some? && !dslSucceeds ==> pipeline.dsl.value == NullHandle
      ensures layoutInfo.pushConstants == pushConstants
      ensures !layoutSucceeds ==> pipeline.layout == NullHandle
      ensures info == GraphicsCreateInfo(Some(vertexBinding), Some(vertexAttributes), stages, windowExtent,
                                         Fill, CullNone, true, false, pipeline.layout, renderPass, subpass)
      ensures state == PipelineState(info)
      ensures state.vertexInput == Some((vertexBinding, vertexAttributes)) && state.dynamicStates == [DynamicViewport, DynamicScissor]
      ensures !state.blend.enabled && state.fillMode == Fill && state.cullMode == CullNone && state.depthTest && state.depthWrite
      ensures device.created == old(device.created)
        + (if pipeline.dsl.Some? && dslSucceeds then [Native(DescriptorSetLayoutObject, pipeline.dsl.value)] else [])
        + (if layoutSucceeds then [Native(PipelineLayoutObject, pipeline.layout)] else [])
        + [Native(PipelineObject, pipeline.handle)]
      ensures dal.deallocators.records == old(dal.deallocators.records)
        + (if pipeline.dsl.Some? && dslSucceeds then [Record(Object(DescriptorSetLayoutObject, pipeline.dsl.value))] else [])
        + (if layoutSucceeds then [Record(Object(PipelineLayoutObject, pipeline.layout))] else [])
        + [Record(Object(PipelineObject, pipeline.handle))]
    {
      var dsl, layout;
      dsl, layout, layoutInfo := CreateLayouts(dslSucceeds, layoutSucceeds);
      info := GraphicsCreateInfo(Some(vertexBinding), Some(vertexAttributes), stages, windowExtent,
                                 Fill, CullNone, true, false, layout, renderPass, subpass);
      var pp, st, warned := CompilePipeline(device, info);
      state := st;
      var handle := pp.Unwrap(dal);
      pipeline := Pipeline(handle.handle, layout, dsl);
    }
  }
}
