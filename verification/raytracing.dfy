/** The ray-tracing bookkeeping of the application: the device capability
    check, the acceleration-structure inputs, the ray-tracing descriptor set,
    the shader stages and groups of the pipeline, the shader binding table (SBT)
    and the four regions handed to `traceRaysKHR`. The layout follows the
    "Shader Binding Table" chapter of the Vulkan 1.2 specification with
    VK_KHR_ray_tracing_pipeline. */
module RayTracing {
  import opened Common
  import opened Vk
  import Scene

  /** The fields of `VkPhysicalDeviceRayTracingPipelinePropertiesKHR` the application reads. */
  datatype RtProperties = RtProperties(shaderGroupHandleSize: nat, shaderGroupBaseAlignment: nat, maxRayRecursionDepth: nat)

  datatype Outcome = Pass | Fail(message: string)

  /** The recursion depth the pipeline is created with (`setMaxPipelineRayRecursionDepth(2)`). */
  const MaxPipelineRayRecursionDepth: nat := 2

  // ---------------------------------------------------------------------------
  // Device check

  /** `initRayTracing`: a device that guarantees only one level of recursion is
      refused. Passing the check is what makes the pipeline's recursion depth
      legal: Vulkan requires it not to exceed the device's maximum. */
  function InitRayTracing(props: RtProperties): (r: Outcome)
    ensures r.Fail? <==> props.maxRayRecursionDepth <= 1
    ensures r.Pass? ==> MaxPipelineRayRecursionDepth <= props.maxRayRecursionDepth
  {
    if props.maxRayRecursionDepth <= 1 then
      Fail("Device fails to support ray recursion (m_rtProperties.maxRayRecursionDepth <= 1)")
    else Pass
  }

  // ---------------------------------------------------------------------------
  // Acceleration-structure inputs

  /** `objectToVkGeometryKHR`: one opaque triangle geometry over the model's
      vertex and index buffers (whose device addresses are given) and one build
      range over all complete triangles of the index buffer. */
  function ObjectToGeometry(model: Scene.ObjModel, vertexAddress: nat, indexAddress: nat): (r: BlasInput)
    ensures |r.geometries| == 1 && |r.ranges| == 1
    ensures r.geometries[0].isOpaque && r.geometries[0].data.Triangles?
    ensures r.geometries[0].data.maxVertex == model.nbVertices
    ensures r.geometries[0].data.vertexData == vertexAddress && r.geometries[0].data.indexData == indexAddress
    ensures r.geometries[0].data.vertexFormat == R32G32B32Sfloat && r.geometries[0].data.indexType32
    ensures r.geometries[0].data.vertexStride == VertexObjSize && r.geometries[0].data.transformData == 0
    ensures var n := r.ranges[0].primitiveCount; 3 * n <= model.nbIndices < 3 * n + 3
    ensures r.ranges[0].primitiveOffset == 0 && r.ranges[0].firstVertex == 0 && r.ranges[0].transformOffset == 0
  {
    var maxPrimitiveCount := model.nbIndices / 3;
    var triangles := Triangles(R32G32B32Sfloat, vertexAddress, VertexObjSize, true, indexAddress, 0, model.nbVertices);
    var offset := BuildRange(maxPrimitiveCount, 0, 0, 0);
    BlasInput([Geometry(triangles, true)], [offset])
  }

  /** `createBottomLevelAS`: the only bottom-level input is the spheres'. */
  function CreateBottomLevelAS(spheres: BlasInput): (r: seq<BlasInput>)
  {
    [spheres]
  }

  /** `createTopLevelAS`: one instance of the sphere BLAS, identity transform,
      custom index equal to its position in the list. */
  function CreateTopLevelAS(): (r: seq<Instance>)
  {
    [Instance(Identity, 0, 0, 0, true)]
  }

  /** Every top-level instance names an existing bottom-level structure, its
      custom index is its position, and its hit group is the one hit group of
      the pipeline. */
  lemma AccelerationStructuresLinked(spheres: BlasInput)
    ensures var tlas := CreateTopLevelAS(); var blas := CreateBottomLevelAS(spheres);
      |tlas| == 1 && |blas| == 1 && blas[0] == spheres
      && (forall i :: 0 <= i < |tlas| ==>
            tlas[i].customId == i && tlas[i].blasId < |blas| && tlas[i].hitGroupId == 0 && tlas[i].transform == Identity)
  {
  }

  // ---------------------------------------------------------------------------
  // Ray-tracing descriptor set

  /** `createRtDescriptorSet`: binding 0 is the top-level acceleration
      structure, binding 1 the storage image the rays write to. */
  function RtDescriptorLayout(): (r: seq<LayoutBinding>)
    ensures DistinctBindings(r) && |r| == 2
    ensures r[0].binding == 0 && r[0].descriptorType == AccelerationStructure && r[0].count == 1
    ensures r[1].binding == 1 && r[1].descriptorType == StorageImage && r[1].count == 1
    ensures r[0].stages == {RaygenStage, ClosestHitStage} && r[1].stages == {RaygenStage}
  {
    [ LayoutBinding(0, AccelerationStructure, 1, {RaygenStage, ClosestHitStage}),
      LayoutBinding(1, StorageImage, 1, {RaygenStage}) ]
  }

  /** The writes of `createRtDescriptorSet`; each fills a declared binding of
      its type with exactly the declared number of descriptors. */
  function RtDescriptorWrites(tlas: nat, outputView: nat): (r: seq<Write>)
    ensures |r| == 2
    ensures r[0] == Write(0, AccelerationStructure, [AccelRes(tlas)])
    ensures r[1] == Write(1, StorageImage, [ImageViewRes(outputView)])
    ensures forall w :: w in r ==> WriteMatches(RtDescriptorLayout(), w)
  {
    assert RtDescriptorLayout()[0].binding == 0 && RtDescriptorLayout()[1].binding == 1;
    [Write(0, AccelerationStructure, [AccelRes(tlas)]), Write(1, StorageImage, [ImageViewRes(outputView)])]
  }

  /** `updateRtDescriptorSet`: after a resize only the output image is rewritten. */
  function RtDescriptorUpdate(outputView: nat): (r: Write)
    ensures r.binding == 1 && r.descriptorType == StorageImage && r.resources == [ImageViewRes(outputView)]
    ensures WriteMatches(RtDescriptorLayout(), r)
  {
    assert RtDescriptorLayout()[1].binding == 1;
    Write(1, StorageImage, [ImageViewRes(outputView)])
  }

  // ---------------------------------------------------------------------------
  // Shader stages and groups

  datatype StageKind = RaygenShader | MissShader | ClosestHitShader | IntersectionShader

  /** `VkPipelineShaderStageCreateInfo`: the stage and the SPIR-V file its module was loaded from. */
  datatype Stage = Stage(kind: StageKind, spvFile: string)

  datatype GroupType = General | TrianglesHitGroup | ProceduralHitGroup

  /** `VK_SHADER_UNUSED_KHR`. */
  const ShaderUnused: nat := 0xFFFF_FFFF

  /** `VkRayTracingShaderGroupCreateInfoKHR`. */
  datatype ShaderGroup = ShaderGroup(groupType: GroupType, generalShader: nat, closestHitShader: nat,
                                     anyHitShader: nat, intersectionShader: nat)

  const EmptyGeneral: ShaderGroup := ShaderGroup(General, ShaderUnused, ShaderUnused, ShaderUnused, ShaderUnused)
  const EmptyProcedural: ShaderGroup := ShaderGroup(ProceduralHitGroup, ShaderUnused, ShaderUnused, ShaderUnused, ShaderUnused)

  /** `index` is VK_SHADER_UNUSED_KHR or names a stage of kind `kind`. */
  predicate UnusedOr(stages: seq<Stage>, index: nat, kind: StageKind) {
    index == ShaderUnused || (index < |stages| && stages[index].kind == kind)
  }

  /** The valid-usage rules of `VkRayTracingShaderGroupCreateInfoKHR`: a general
      group names one raygen or miss stage and nothing else; a procedural hit
      group names an intersection stage, optionally a closest-hit and any-hit
      stage, and no general stage; a triangle hit group names no general and no
      intersection stage. */
  predicate GroupValid(stages: seq<Stage>, g: ShaderGroup) {
    match g.groupType
    case General =>
      g.generalShader < |stages| && stages[g.generalShader].kind in {RaygenShader, MissShader}
      && g.closestHitShader == ShaderUnused && g.anyHitShader == ShaderUnused && g.intersectionShader == ShaderUnused
    case ProceduralHitGroup =>
      g.generalShader == ShaderUnused
      && g.intersectionShader < |stages| && stages[g.intersectionShader].kind == IntersectionShader
      && UnusedOr(stages, g.closestHitShader, ClosestHitShader) && g.anyHitShader == ShaderUnused
    case TrianglesHitGroup =>
      g.generalShader == ShaderUnused && g.intersectionShader == ShaderUnused
      && UnusedOr(stages, g.closestHitShader, ClosestHitShader) && g.anyHitShader == ShaderUnused
  }

  /** `createRtPipeline`: pushes the stages raygen, miss, closest hit and
      intersection, and appends to the existing shader groups a raygen group, a
      miss group and a procedural hit group, each naming the stage count just
      before its stage was pushed. */
  method CreateRtPipeline(shaderGroups: seq<ShaderGroup>) returns (stages: seq<Stage>, groups: seq<ShaderGroup>)
    ensures |stages| == 4
    ensures stages[0].kind == RaygenShader && stages[1].kind == MissShader
    ensures stages[2].kind == ClosestHitShader && stages[3].kind == IntersectionShader
    ensures |groups| == |shaderGroups| + 3 && groups[..|shaderGroups|] == shaderGroups
    ensures forall i :: |shaderGroups| <= i < |groups| ==> GroupValid(stages, groups[i])
    ensures var n := |shaderGroups|;
      groups[n].generalShader == 0 && groups[n + 1].generalShader == 1
      && groups[n + 2].groupType == ProceduralHitGroup
      && groups[n + 2].closestHitShader == 2 && groups[n + 2].intersectionShader == 3
  {
    stages := [];
    groups := shaderGroups;

    var rg := EmptyGeneral.(generalShader := |stages|);
    stages := stages + [Stage(RaygenShader, "spv/raytrace.rgen.spv")];
    groups := groups + [rg];

    var mg := EmptyGeneral.(generalShader := |stages|);
    stages := stages + [Stage(MissShader, "spv/raytrace.rmiss.spv")];
    groups := groups + [mg];

    var hg := EmptyProcedural.(closestHitShader := |stages|);
    stages := stages + [Stage(ClosestHitShader, "spv/raytrace.rchit.spv")];
    hg := hg.(intersectionShader := |stages|);
    stages := stages + [Stage(IntersectionShader, "spv/raytrace.rint.spv")];
    groups := groups + [hg];
  }

  // ---------------------------------------------------------------------------
  // Shader binding table

  /** `nvh::align_up`: the smallest multiple of `a` that is at least `x`. */
  function AlignUp(x: nat, a: nat): (r: nat)
    requires a > 0
    ensures x <= r < x + a
    ensures r % a == 0
  {
    var q := (x + a - 1) / a;
    MulMod(q, a);
    q * a
  }

  /** A multiple of `a` leaves no remainder. */
  lemma MulMod(q: nat, a: nat)
    requires a > 0
    ensures (q * a) % a == 0
  {
    var d := (q * a) / a;
    var m := (q * a) % a;
    assert q * a == d * a + m;
    assert (q - d) * a == m by { MulSub(q, d, a); }
    if q - d >= 1 {
      MulGe(q - d, a);
      assert false;
    } else if q - d <= -1 {
      MulGe(d - q, a);
      MulSub(d, q, a);
      assert false;
    }
  }

  /** Multiples of `a` are closed under addition. */
  lemma ModAdd(x: nat, y: nat, a: nat)
    requires a > 0 && x % a == 0 && y % a == 0
    ensures (x + y) % a == 0
  {
    var p := x / a;
    var q := y / a;
    assert x == p * a && y == q * a;
    MulAdd(p, q, a);
    MulMod(p + q, a);
  }

  lemma MulAdd(x: int, y: int, a: int)
    ensures (x + y) * a == x * a + y * a
  {
  }

  lemma MulSub(x: int, y: int, a: int)
    ensures (x - y) * a == x * a - y * a
  {
  }

  lemma MulGe(x: int, a: int)
    requires x >= 1 && a > 0
    ensures x * a >= a
  {
  }

  /** The size of one SBT record: a handle rounded up to the base alignment. */
  function GroupSize(props: RtProperties): nat
    requires props.shaderGroupBaseAlignment > 0
  {
    AlignUp(props.shaderGroupHandleSize, props.shaderGroupBaseAlignment)
  }

  /** Byte `i` of the SBT buffer after the first `n` handles were copied:
      handle `g` (bytes `[g·handleSize, (g+1)·handleSize)` of the packed
      storage) lands at byte `g·aligned`, and every other byte keeps its
      `prior` value. */
  function SbtByte(prior: seq<Byte>, handles: seq<Byte>, n: nat, handleSize: nat, aligned: nat, i: nat): Byte
    requires i < |prior| && Off(n, handleSize) <= |handles|
  {
    if n == 0 then prior[i]
    else
      var start := Off(n - 1, aligned);
      if start <= i < start + handleSize then handles[Off(n - 1, handleSize) + (i - start)]
      else SbtByte(prior, handles, n - 1, handleSize, aligned, i)
  }

  /** The whole SBT buffer after the first `n` handles were copied. */
  function SbtLayout(prior: seq<Byte>, handles: seq<Byte>, n: nat, handleSize: nat, aligned: nat): (r: seq<Byte>)
    requires Off(n, handleSize) <= |handles|
    ensures |r| == |prior|
    ensures forall i :: 0 <= i < |prior| ==> r[i] == SbtByte(prior, handles, n, handleSize, aligned, i)
  {
    seq(|prior|, i requires 0 <= i < |prior| => SbtByte(prior, handles, n, handleSize, aligned, i))
  }

  /** Every handle is found, whole, at the start of its record. */
  lemma {:induction false} SbtLayoutSlot(prior: seq<Byte>, handles: seq<Byte>, n: nat, handleSize: nat, aligned: nat,
                                         g: nat, k: nat)
    requires handleSize <= aligned
    requires Off(n, aligned) <= |prior| && Off(n, handleSize) <= |handles|
    requires g < n && k < handleSize
    ensures Off(g, aligned) + k < |prior| && Off(g, handleSize) + k < |handles|
    ensures SbtLayout(prior, handles, n, handleSize, aligned)[Off(g, aligned) + k] == handles[Off(g, handleSize) + k]
  {
    OffMono(g, n, aligned);
    OffMono(g, n, handleSize);
    if g < n - 1 {
      OffMono(g, n - 1, aligned);
      SbtLayoutSlot(prior, handles, n - 1, handleSize, aligned, g, k);
    }
  }

  /** Bytes past the last record are never written. */
  lemma {:induction false} SbtLayoutTail(prior: seq<Byte>, handles: seq<Byte>, n: nat, handleSize: nat, aligned: nat,
                                         i: nat)
    requires handleSize <= aligned
    requires Off(n, aligned) <= |prior| && Off(n, handleSize) <= |handles|
    requires Off(n, aligned) <= i < |prior|
    ensures SbtLayout(prior, handles, n, handleSize, aligned)[i] == prior[i]
  {
    if n > 0 {
      SbtLayoutTail(prior, handles, n - 1, handleSize, aligned, i);
    }
  }

  /** The padding of every record, between the end of its handle and the next
      record, is never written. */
  lemma {:induction false} SbtLayoutPadding(prior: seq<Byte>, handles: seq<Byte>, n: nat, handleSize: nat, aligned: nat,
                                            g: nat, k: nat)
    requires handleSize <= aligned
    requires Off(n, aligned) <= |prior| && Off(n, handleSize) <= |handles|
    requires g < n && handleSize <= k < aligned
    ensures Off(g, aligned) + k < |prior|
    ensures SbtLayout(prior, handles, n, handleSize, aligned)[Off(g, aligned) + k] == prior[Off(g, aligned) + k]
  {
    OffMono(g, n, aligned);
    if g < n - 1 {
      OffMono(g, n - 1, aligned);
      SbtLayoutPadding(prior, handles, n - 1, handleSize, aligned, g, k);
    } else {
      SbtLayoutTail(prior, handles, n - 1, handleSize, aligned, Off(g, aligned) + k);
    }
  }

  /** Copying handle `g` to record `g` of the buffer holding the first `g`
      handles gives the buffer holding the first `g + 1`. */
  lemma SbtLayoutNext(prior: seq<Byte>, handles: seq<Byte>, g: nat, handleSize: nat, aligned: nat)
    requires Off(g + 1, aligned) <= |prior| && Off(g + 1, handleSize) <= |handles|
    requires handleSize <= aligned
    ensures Off(g, handleSize) + handleSize <= |handles|
    ensures Copy(SbtLayout(prior, handles, g, handleSize, aligned), Off(g, aligned),
                 handles[Off(g, handleSize) .. Off(g, handleSize) + handleSize])
            == SbtLayout(prior, handles, g + 1, handleSize, aligned)
  {
    var before := SbtLayout(prior, handles, g, handleSize, aligned);
    var src := handles[Off(g, handleSize) .. Off(g, handleSize) + handleSize];
    var after := Copy(before, Off(g, aligned), src);
    forall i | 0 <= i < |prior|
      ensures after[i] == SbtLayout(prior, handles, g + 1, handleSize, aligned)[i]
    {
      CopyAt(before, Off(g, aligned), src, i);
    }
  }

  /** The copy loop of `createRtShaderBindingTable`: handle `g`, at
      `g·handleSize` in the packed storage, is copied to the mapped SBT buffer
      at the write pointer, which advances by one aligned record per group. */
  method WriteShaderBindingTable(mapped: array<Byte>, handles: seq<Byte>, groupCount: nat, handleSize: nat, aligned: nat)
    requires handleSize <= aligned
    requires Off(groupCount, aligned) <= mapped.Length && Off(groupCount, handleSize) <= |handles|
    modifies mapped
    ensures mapped[..] == SbtLayout(old(mapped[..]), handles, groupCount, handleSize, aligned)
  {
    ghost var prior := mapped[..];
    var pData := 0;
    var g := 0;
    while g < groupCount
      invariant g <= groupCount
      invariant pData == Off(g, aligned)
      invariant Off(g, aligned) <= mapped.Length && Off(g, handleSize) <= |handles|
      invariant mapped[..] == SbtLayout(prior, handles, g, handleSize, aligned)
    {
      OffMono(g, groupCount, aligned);
      OffMono(g, groupCount, handleSize);
      OffIsProduct(g, handleSize);
      SbtLayoutNext(prior, handles, g, handleSize, aligned);
      Memcpy(mapped, pData, handles, g * handleSize, handleSize);
      pData := pData + aligned;
      g := g + 1;
    }
  }

  /** `createRtShaderBindingTable`: `groupCount` records of
      `align_up(handleSize, baseAlignment)` bytes, filled from the handle
      storage. `mapped` is the host-visible SBT buffer of `sbtSize` bytes. */
  method CreateRtShaderBindingTable(props: RtProperties, groupCount: nat, handleStorage: seq<Byte>, mapped: array<Byte>)
    requires props.shaderGroupBaseAlignment > 0
    requires mapped.Length == groupCount * GroupSize(props) && |handleStorage| == groupCount * GroupSize(props)
    modifies mapped
    ensures Off(groupCount, GroupSize(props)) == mapped.Length
    ensures Off(groupCount, props.shaderGroupHandleSize) <= |handleStorage|
    ensures mapped[..] == SbtLayout(old(mapped[..]), handleStorage, groupCount, props.shaderGroupHandleSize, GroupSize(props))
  {
    var groupHandleSize := props.shaderGroupHandleSize;
    var groupSizeAligned := AlignUp(groupHandleSize, props.shaderGroupBaseAlignment);
    var sbtSize := groupCount * groupSizeAligned;
    MulMono(groupHandleSize, groupSizeAligned, groupCount);
    OffIsProduct(groupCount, groupSizeAligned);
    OffIsProduct(groupCount, groupHandleSize);
    WriteShaderBindingTable(mapped, handleStorage, groupCount, groupHandleSize, groupSizeAligned);
  }

  // ---------------------------------------------------------------------------
  // Trace regions

  /** `VkStridedDeviceAddressRegionKHR`. */
  datatype Region = Region(deviceAddress: nat, stride: nat, size: nat)

  /** The regions of `rayTrace`: raygen, miss, hit and callable, in that order. */
  function TraceRegions(sbtAddress: nat, props: RtProperties): (r: seq<Region>)
    requires props.shaderGroupBaseAlignment > 0
    ensures |r| == 4
  {
    var groupSize := AlignUp(props.shaderGroupHandleSize, props.shaderGroupBaseAlignment);
    var groupStride := groupSize;
    [ Region(sbtAddress + 0 * groupSize, groupStride, groupSize * 1),
      Region(sbtAddress + 1 * groupSize, groupStride, groupSize * 1),
      Region(sbtAddress + 2 * groupSize, groupStride, groupSize * 1),
      Region(0, 0, 0) ]
  }

  /** The regions obey the valid-usage rules of `vkCmdTraceRaysKHR`: raygen,
      miss and hit regions hold one record each, size equal to stride, at an
      address aligned to `shaderGroupBaseAlignment` when the SBT buffer is; the
      callable region is empty. */
  lemma TraceRegionsValid(sbtAddress: nat, props: RtProperties)
    requires props.shaderGroupBaseAlignment > 0
    requires sbtAddress % props.shaderGroupBaseAlignment == 0
    ensures var r := TraceRegions(sbtAddress, props); var a := props.shaderGroupBaseAlignment;
      (forall i :: 0 <= i < 3 ==> r[i].size == r[i].stride == GroupSize(props) && r[i].deviceAddress % a == 0
                                  && r[i].stride >= props.shaderGroupHandleSize)
      && r[3] == Region(0, 0, 0)
  {
    var a := props.shaderGroupBaseAlignment;
    var gs := GroupSize(props);
    var r := TraceRegions(sbtAddress, props);
    assert r[1].deviceAddress == sbtAddress + gs;
    assert r[2].deviceAddress == (sbtAddress + gs) + gs;
    ModAdd(sbtAddress, gs, a);
    ModAdd(sbtAddress + gs, gs, a);
  }

  /** The region of group `g` (0 raygen, 1 miss, 2 hit, the order of
      `createRtPipeline`) starts at record `g` of the SBT, which is where
      `createRtShaderBindingTable` copied handle `g` (`SbtLayoutSlot`). */
  lemma TraceRegionsAtRecords(sbtAddress: nat, props: RtProperties, g: nat)
    requires props.shaderGroupBaseAlignment > 0
    requires g < 3
    ensures TraceRegions(sbtAddress, props)[g].deviceAddress == sbtAddress + Off(g, GroupSize(props))
  {
    var gs := GroupSize(props);
    assert Off(0, gs) == 0;
    assert Off(1, gs) == gs;
    assert Off(2, gs) == gs + gs;
  }

  /** The raygen, miss and hit groups `createRtPipeline` appends are groups 0,
      1 and 2 of the table, and `rayTrace` points region `g` at record `g`:
      after the copy, the first `handleSize` bytes of region `g` are the
      handle of group `g`. */
  lemma RegionHoldsHandle(sbtAddress: nat, props: RtProperties, prior: seq<Byte>, handles: seq<Byte>, g: nat, k: nat)
    requires props.shaderGroupBaseAlignment > 0
    requires Off(3, GroupSize(props)) <= |prior| && Off(3, props.shaderGroupHandleSize) <= |handles|
    requires g < 3 && k < props.shaderGroupHandleSize
    ensures var offset := TraceRegions(sbtAddress, props)[g].deviceAddress - sbtAddress;
      0 <= offset && offset + k < |prior| && Off(g, props.shaderGroupHandleSize) + k < |handles|
      && SbtLayout(prior, handles, 3, props.shaderGroupHandleSize, GroupSize(props))[offset + k]
         == handles[Off(g, props.shaderGroupHandleSize) + k]
  {
    TraceRegionsAtRecords(sbtAddress, props, g);
    SbtLayoutSlot(prior, handles, 3, props.shaderGroupHandleSize, GroupSize(props), g, k);
  }
}
