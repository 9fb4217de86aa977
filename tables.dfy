/**
 * Lookup tables of the library: the access masks and pipeline stages of an
 * image layout transition, and the translation of Vulkan shader stages to
 * the shader compiler's stage enumeration.
 */
module Tables {
  import opened Vk

  /** VkAccessFlagBits the transition uses; a mask is a set of them. */
  datatype Access =
    | ColorAttachmentWrite
    | DepthStencilAttachmentRead
    | DepthStencilAttachmentWrite
    | TransferRead
    | TransferWrite
    | HostWrite
    | ShaderRead
    | MemoryRead

  /** VkPipelineStageFlagBits the transition uses; NoStage is a default-constructed (zero) mask. */
  datatype Stage =
    | NoStage
    | TopOfPipe
    | Host
    | Transfer
    | ColorAttachmentOutput
    | EarlyFragmentTests
    | FragmentShader
    | BottomOfPipe

  datatype Aspect = ColorAspect | DepthAspect

  /** One switch of the transition: the value it leaves, and whether it logged an unsupported layout. */
  datatype Row<T> = Row(value: T, logged: bool)

  /**
   * The access types a pipeline stage supports, as tabulated in the Vulkan
   * 1.3 specification, chapter "Synchronization and Cache Control",
   * section "Access Types" (table "Supported access types"); MEMORY_READ is
   * valid with every stage.
   */
  function SupportedAccess(stage: Stage): set<Access>
  {
    match stage
    case NoStage => {}
    case TopOfPipe => {MemoryRead}
    case BottomOfPipe => {MemoryRead}
    case Host => {HostWrite, MemoryRead}
    case Transfer => {TransferRead, TransferWrite, MemoryRead}
    case ColorAttachmentOutput => {ColorAttachmentWrite, MemoryRead}
    case EarlyFragmentTests => {DepthStencilAttachmentRead, DepthStencilAttachmentWrite, MemoryRead}
    case FragmentShader => {ShaderRead, MemoryRead}
  }

  /** The first switch: the source access mask for the old layout. */
  function SrcAccessMask(oldLayout: ImageLayout): Row<set<Access>>
  {
    match oldLayout
    case ColorAttachmentOptimal => Row({ColorAttachmentWrite}, false)
    case PresentSrcKHR => Row({MemoryRead}, false)
    case TransferDstOptimal => Row({TransferWrite}, false)
    case TransferSrcOptimal => Row({TransferRead}, false)
    case Preinitialized => Row({HostWrite}, false)
    case General => Row({}, false)
    case LayoutUndefined => Row({}, false)
    case ShaderReadOnlyOptimal => Row({ShaderRead}, false)
    case _ => Row({}, true)
  }

  /** The second switch: the source stage for the old layout. */
  function SrcStage(oldLayout: ImageLayout): Row<Stage>
  {
    match oldLayout
    case General => Row(Host, false)
    case Preinitialized => Row(Host, false)
    case ColorAttachmentOptimal => Row(ColorAttachmentOutput, false)
    case PresentSrcKHR => Row(BottomOfPipe, false)
    case TransferDstOptimal => Row(Transfer, false)
    case TransferSrcOptimal => Row(Transfer, false)
    case LayoutUndefined => Row(TopOfPipe, false)
    case ShaderReadOnlyOptimal => Row(FragmentShader, false)
    case _ => Row(NoStage, true)
  }

  /** The third switch: the destination access mask for the new layout. */
  function DstAccessMask(newLayout: ImageLayout): Row<set<Access>>
  {
    match newLayout
    case ColorAttachmentOptimal => Row({ColorAttachmentWrite}, false)
    case DepthStencilAttachmentOptimal => Row({DepthStencilAttachmentRead, DepthStencilAttachmentWrite}, false)
    case General => Row({}, false)
    case PresentSrcKHR => Row({}, false)
    case ShaderReadOnlyOptimal => Row({ShaderRead}, false)
    case TransferSrcOptimal => Row({TransferRead}, false)
    case TransferDstOptimal => Row({TransferWrite}, false)
    case _ => Row({}, true)
  }

  /** The fourth switch: the destination stage for the new layout. */
  function DstStage(newLayout: ImageLayout): Row<Stage>
  {
    match newLayout
    case ColorAttachmentOptimal => Row(ColorAttachmentOutput, false)
    case DepthStencilAttachmentOptimal => Row(EarlyFragmentTests, false)
    case General => Row(Host, false)
    case PresentSrcKHR => Row(BottomOfPipe, false)
    case ShaderReadOnlyOptimal => Row(FragmentShader, false)
    case TransferDstOptimal => Row(Transfer, false)
    case TransferSrcOptimal => Row(Transfer, false)
    case _ => Row(NoStage, true)
  }

  /** The old layouts and new layouts the transition supports. */
  predicate SupportedOld(l: ImageLayout)
  {
    l in {ColorAttachmentOptimal, PresentSrcKHR, TransferDstOptimal, TransferSrcOptimal,
          Preinitialized, General, LayoutUndefined, ShaderReadOnlyOptimal}
  }

  predicate SupportedNew(l: ImageLayout)
  {
    l in {ColorAttachmentOptimal, DepthStencilAttachmentOptimal, General, PresentSrcKHR,
          ShaderReadOnlyOptimal, TransferSrcOptimal, TransferDstOptimal}
  }

  /** The image memory barrier and stage masks that transition() records. */
  datatype Barrier = Barrier(
    srcAccess: set<Access>,
    dstAccess: set<Access>,
    srcStage: Stage,
    dstStage: Stage,
    oldLayout: ImageLayout,
    newLayout: ImageLayout,
    aspect: Aspect,
    errorsLogged: nat)

  /**
   * transition(): the barrier for one layout change. For a supported pair
   * every access mask is one its stage supports and no stage is left zero;
   * an unsupported old (new) layout is reported by both of its switches and
   * leaves an empty access mask and a zero stage; the aspect is depth
   * exactly when the new layout is the depth-stencil attachment layout.
   */
  function Transition(oldLayout: ImageLayout, newLayout: ImageLayout): (b: Barrier)
    ensures b.oldLayout == oldLayout && b.newLayout == newLayout
    ensures b.aspect == DepthAspect <==> newLayout == DepthStencilAttachmentOptimal
    ensures SupportedOld(oldLayout) ==> b.srcAccess <= SupportedAccess(b.srcStage) && b.srcStage != NoStage
    ensures SupportedNew(newLayout) ==> b.dstAccess <= SupportedAccess(b.dstStage) && b.dstStage != NoStage
    ensures !SupportedOld(oldLayout) ==> b.srcAccess == {} && b.srcStage == NoStage
    ensures !SupportedNew(newLayout) ==> b.dstAccess == {} && b.dstStage == NoStage
    ensures b.errorsLogged == (if SupportedOld(oldLayout) then 0 else 2) + (if SupportedNew(newLayout) then 0 else 2)
  {
    var sa, ss, da, ds := SrcAccessMask(oldLayout), SrcStage(oldLayout), DstAccessMask(newLayout), DstStage(newLayout);
    Barrier(sa.value, da.value, ss.value, ds.value, oldLayout, newLayout,
      if newLayout == DepthStencilAttachmentOptimal then DepthAspect else ColorAspect,
      (if sa.logged then 1 else 0) + (if ss.logged then 1 else 0) + (if da.logged then 1 else 0) + (if ds.logged then 1 else 0))
  }

  /** The shader compiler's stages (glslang's EShLanguage). */
  datatype Language =
    | LangVertex
    | LangTessControl
    | LangTessEvaluation
    | LangGeometry
    | LangFragment
    | LangCompute
    | LangTask
    | LangMesh
    | LangRayGenNV
    | LangAnyHitNV
    | LangClosestHitNV
    | LangMissNV
    | LangIntersectNV
    | LangCallableNV

  /** The single shader stages the translation knows. */
  predicate KnownStage(stage: ShaderStage)
  {
    !stage.OtherStages?
  }

  /** translate_shader_stage: the compiler stage, and whether the stage was unknown (logged, vertex assumed). */
  function TranslateShaderStage(stage: ShaderStage): (r: Row<Language>)
    ensures r.logged <==> !KnownStage(stage)
    ensures r.logged ==> r.value == LangVertex
  {
    match stage
    case VertexStage => Row(LangVertex, false)
    case TessellationControlStage => Row(LangTessControl, false)
    case TessellationEvaluationStage => Row(LangTessEvaluation, false)
    case GeometryStage => Row(LangGeometry, false)
    case FragmentStage => Row(LangFragment, false)
    case ComputeStage => Row(LangCompute, false)
    case TaskStageEXT => Row(LangTask, false)
    case MeshStageNV => Row(LangMesh, false)
    case RaygenStageNV => Row(LangRayGenNV, false)
    case AnyHitStageNV => Row(LangAnyHitNV, false)
    case ClosestHitStageNV => Row(LangClosestHitNV, false)
    case MissStageNV => Row(LangMissNV, false)
    case IntersectionStageNV => Row(LangIntersectNV, false)
    case CallableStageNV => Row(LangCallableNV, false)
    case OtherStages(_) => Row(LangVertex, true)
  }

  /** The Vulkan stage each compiler stage is compiled for: the reverse table. */
  function StageOf(lang: Language): (s: ShaderStage)
    ensures KnownStage(s)
  {
    match lang
    case LangVertex => VertexStage
    case LangTessControl => TessellationControlStage
    case LangTessEvaluation => TessellationEvaluationStage
    case LangGeometry => GeometryStage
    case LangFragment => FragmentStage
    case LangCompute => ComputeStage
    case LangTask => TaskStageEXT
    case LangMesh => MeshStageNV
    case LangRayGenNV => RaygenStageNV
    case LangAnyHitNV => AnyHitStageNV
    case LangClosestHitNV => ClosestHitStageNV
    case LangMissNV => MissStageNV
    case LangIntersectNV => IntersectionStageNV
    case LangCallableNV => CallableStageNV
  }

  /** The translation is a bijection between the known stages and the compiler stages. */
  lemma TranslationRoundTrip(stage: ShaderStage, lang: Language)
    ensures KnownStage(stage) ==> StageOf(TranslateShaderStage(stage).value) == stage
    ensures TranslateShaderStage(StageOf(lang)) == Row(lang, false)
  {
  }
}
