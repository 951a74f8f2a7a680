/** The parts of the WebGPU device that the program pipeline consults: the
    capability limits, the ShaderF16 feature and opaque pipeline handles. */
module Gpu {

  /** A C++ uint32_t. */
  type UInt32 = x: nat | x < 0x1_0000_0000

  const UInt32Modulus: nat := 0x1_0000_0000

  /** The fields of wgpu::Limits that the core reads. */
  datatype Limits = Limits(
    maxComputeWorkgroupSizeX: UInt32,
    maxComputeWorkgroupSizeY: UInt32,
    maxComputeWorkgroupSizeZ: UInt32,
    maxComputeInvocationsPerWorkgroup: UInt32,
    maxStorageBuffersPerShaderStage: UInt32,
    maxComputeWorkgroupsPerDimension: UInt32)

  /** The device, as far as shader generation asks it anything. */
  datatype Device = Device(hasShaderF16: bool)

  /** A compiled compute pipeline, known only by its handle. */
  datatype ComputePipeline = ComputePipeline(handle: nat)

  /** A (x, y, z) triple of uint32 sizes: a dispatch group count or a workgroup size. */
  datatype Dim3 = Dim3(x: UInt32, y: UInt32, z: UInt32)
}
