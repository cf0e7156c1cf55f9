/** The parts of the Vulkan 1.2 vocabulary (with VK_KHR_acceleration_structure
    and VK_KHR_ray_tracing_pipeline) that the model needs, as plain values:
    descriptor-set layout bindings and writes, acceleration-structure build
    inputs and textures. Device addresses and handles are numbers. */
module Vk {
  import opened Common

  datatype DescriptorType = UniformBuffer | StorageBuffer | CombinedImageSampler | StorageImage | AccelerationStructure

  datatype ShaderStage = VertexStage | FragmentStage | RaygenStage | MissStage | ClosestHitStage | IntersectionStage

  /** `VkDescriptorSetLayoutBinding`. */
  datatype LayoutBinding = LayoutBinding(binding: nat, descriptorType: DescriptorType, count: nat, stages: set<ShaderStage>)

  datatype Format = R8G8B8A8Srgb | R8G8B8Srgb | R32G32B32Sfloat | UndefinedFormat

  /** A sampled image: extent, format, array layers and the bytes uploaded to it. */
  datatype Texture = Texture(width: nat, height: nat, format: Format, layers: nat, data: seq<Byte>)

  /** What one descriptor points at. */
  datatype Resource = BufferRes(buffer: Buffer) | TextureRes(texture: Texture) | AccelRes(accel: nat) | ImageViewRes(view: nat)

  /** `VkWriteDescriptorSet`: one write of `|resources|` descriptors to a binding. */
  datatype Write = Write(binding: nat, descriptorType: DescriptorType, resources: seq<Resource>)

  /** No binding number is declared twice. */
  predicate DistinctBindings(layout: seq<LayoutBinding>) {
    forall i, j :: 0 <= i < j < |layout| ==> layout[i].binding != layout[j].binding
  }

  /** A write names a declared binding of its type and supplies exactly as many
      descriptors as that binding declares. */
  predicate WriteMatches(layout: seq<LayoutBinding>, w: Write) {
    exists i :: 0 <= i < |layout| && layout[i].binding == w.binding
      && layout[i].descriptorType == w.descriptorType && layout[i].count == |w.resources|
  }

  /** `VkAccelerationStructureGeometryKHR`: triangle data (vertex format and
      stride, index data, vertex count) or AABB data (address and stride). */
  datatype GeometryData =
    | Triangles(vertexFormat: Format, vertexData: nat, vertexStride: nat, indexType32: bool, indexData: nat,
                transformData: nat, maxVertex: nat)
    | Aabbs(data: nat, stride: nat)

  datatype Geometry = Geometry(data: GeometryData, isOpaque: bool)

  /** `VkAccelerationStructureBuildRangeInfoKHR`. */
  datatype BuildRange = BuildRange(primitiveCount: nat, primitiveOffset: nat, firstVertex: nat, transformOffset: nat)

  /** `nvvk::RaytracingBuilderKHR::BlasInput`: geometries and their build ranges, pairwise. */
  datatype BlasInput = BlasInput(geometries: seq<Geometry>, ranges: seq<BuildRange>)

  /** `nvvk::RaytracingBuilderKHR::Instance`. */
  datatype Instance = Instance(transform: Mat4, customId: nat, blasId: nat, hitGroupId: nat, cullDisable: bool)

  /** `sizeof(VertexObj)`: position, normal, colour (three floats each) and a texture coordinate (two). */
  const VertexObjSize: nat := 44

  /** `sizeof(AABB)`: two three-float corners. */
  const AabbSize: nat := 24
}
