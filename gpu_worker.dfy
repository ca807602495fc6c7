/** The per-device command mailbox and the round bookkeeping of the GPU
    reconstruction workers (GPUWorker.h).

    The controller fills a worker's GPUWorkerCommunicator with one prepare*
    call: the call sets the numeric stage tag `step` and copies its arguments,
    or the addresses of its reference arguments, into the fields that stage
    reads. GPUWorkerSync starts one round by resetting its counters and
    calling a starter once per device.

    Payload values are only ever copied, never computed, so each C++ payload
    type is modelled by a plain value: float as real, int as int, uint3 and
    float3 as triples, Matrix4 as its entries, raw pointers as an
    address. A C++ reference argument whose address is stored becomes a
    Dafny object (Ref), so that "stores a reference to the caller's vector"
    is reference equality. */
module GPUWorker {

  datatype Option<T> = None | Some(value: T)

  /** CUDA's uint3 and float3. */
  datatype UInt3 = UInt3(x: nat, y: nat, z: nat)
  datatype Float3 = Float3(x: real, y: real, z: real)

  /** A 4x4 matrix, row-major. */
  datatype Matrix4 = Matrix4(entries: seq<real>)

  /** A raw pointer (host or device), as its address; 0 is NULL. */
  datatype Ptr = Ptr(address: nat)

  /** The voxels of a Volume<float> held on the device. */
  datatype VolumeData = VolumeData(size: UInt3, voxels: seq<real>)

  /** A std::vector<bool>::iterator: a vector and a position in it. */
  datatype BoolIter = BoolIter(vector: Ref?<seq<bool>>, position: int)

  /** The five floats of the M-step's thrust::tuple. */
  type MStepResults = (real, real, real, real, real)

  /** An object owned by the caller, such as a std::vector or a device
      volume, whose address a prepare method keeps. */
  class Ref<T> {
    var value: T

    constructor (v: T)
      ensures value == v
    {
      value := v;
    }
  }

  /** The reconstruction state the workers share; its contents are not part
      of this model. */
  class Reconstruction {
    constructor ()
    {
    }
  }

  /** The pipeline stages a communicator can be prepared for, one per
      prepare* method, in the order of their tags. */
  datatype Stage =
    | GeneratePSFVolume | SetSliceDims | SetSliceMatrices | SetMask
    | InitReconstructionVolume | UpdateSliceWeights | UpdateScaleVector
    | InitStorageVolumes | FillSlices | UpdateReconstructed | CorrectBias
    | Superresolution | GaussianReconstruction1 | GaussianReconstruction2
    | NormaliseBias | SimulateSlices | EStep | MStep | CalculateScaleVector
    | InitializeEMValues | PrepareSliceToVolumeReg | UpdateResampledSlicesI2W
    | RegisterSlicesToVolume1 | RegisterSlicesToVolume2 | InitRegStorageVolumes
    | FillRegSlices

  /** The value of `step` before any stage has been prepared. */
  const IdleStep: int := -2

  /** The numeric tag that the prepare method of a stage writes into `step`. */
  function StageTag(s: Stage): (t: int)
    ensures 1 <= t <= 27 && t != 13 && t != IdleStep
  {
    match s
    case GeneratePSFVolume => 1
    case SetSliceDims => 2
    case SetSliceMatrices => 3
    case SetMask => 4
    case InitReconstructionVolume => 5
    case UpdateSliceWeights => 6
    case UpdateScaleVector => 7
    case InitStorageVolumes => 8
    case FillSlices => 9
    case UpdateReconstructed => 10
    case CorrectBias => 11
    case Superresolution => 12
    case GaussianReconstruction1 => 14
    case GaussianReconstruction2 => 15
    case NormaliseBias => 16
    case SimulateSlices => 17
    case EStep => 18
    case MStep => 19
    case CalculateScaleVector => 20
    case InitializeEMValues => 21
    case PrepareSliceToVolumeReg => 22
    case UpdateResampledSlicesI2W => 23
    case RegisterSlicesToVolume1 => 24
    case RegisterSlicesToVolume2 => 25
    case InitRegStorageVolumes => 26
    case FillRegSlices => 27
  }

  /** The stage a value of `step` announces, if any: how a worker reads its
      mailbox. */
  function StageOf(step: int): (r: Option<Stage>)
    ensures r.Some? <==> 1 <= step <= 27 && step != 13
  {
    match step
    case 1 => Some(GeneratePSFVolume)
    case 2 => Some(SetSliceDims)
    case 3 => Some(SetSliceMatrices)
    case 4 => Some(SetMask)
    case 5 => Some(InitReconstructionVolume)
    case 6 => Some(UpdateSliceWeights)
    case 7 => Some(UpdateScaleVector)
    case 8 => Some(InitStorageVolumes)
    case 9 => Some(FillSlices)
    case 10 => Some(UpdateReconstructed)
    case 11 => Some(CorrectBias)
    case 12 => Some(Superresolution)
    case 14 => Some(GaussianReconstruction1)
    case 15 => Some(GaussianReconstruction2)
    case 16 => Some(NormaliseBias)
    case 17 => Some(SimulateSlices)
    case 18 => Some(EStep)
    case 19 => Some(MStep)
    case 20 => Some(CalculateScaleVector)
    case 21 => Some(InitializeEMValues)
    case 22 => Some(PrepareSliceToVolumeReg)
    case 23 => Some(UpdateResampledSlicesI2W)
    case 24 => Some(RegisterSlicesToVolume1)
    case 25 => Some(RegisterSlicesToVolume2)
    case 26 => Some(InitRegStorageVolumes)
    case 27 => Some(FillRegSlices)
    case _ => None
  }

  /** Reading a tag back gives the stage that wrote it ... */
  lemma StageTagRoundTrip(s: Stage)
    ensures StageOf(StageTag(s)) == Some(s)
  {
  }

  /** ... and every tag a worker recognises was written by exactly that stage. */
  lemma StageOfRoundTrip(step: int)
    ensures StageOf(step).Some? ==> StageTag(StageOf(step).value) == step
  {
  }

  /** No two stages share a tag. */
  lemma StageTagInjective(a: Stage, b: Stage)
    ensures StageTag(a) == StageTag(b) ==> a == b
  {
    StageTagRoundTrip(a);
    StageTagRoundTrip(b);
  }

  /** The idle tag and tag 13 announce no stage. */
  lemma UnusedTags()
    ensures StageOf(IdleStep) == None && StageOf(13) == None
  {
  }

  /** The round bookkeeping shared by the controller and the workers. The two
      mutexes and condition variables are not part of this model. */
  class GPUWorkerSync {
    /** The number of workers launched in the current round. */
    var gpuCount: int
    /** The number of workers that have reported completion. */
    var count: int

    constructor ()
      ensures gpuCount == 0 && count == 0
    {
      gpuCount := 0;
      count := 0;
    }

    /** The launch data after starter has run for indices 0 .. k-1 in turn. */
    static function Launched<D>(starter: (int, D) -> D, data: D, k: nat): D
    {
      if k == 0 then data else starter(k - 1, Launched(starter, data, k - 1))
    }

    /** The part of startup that runs under the worker lock: record the round
        size, reset the completion counter and call the starter once per
        device. `starter` receives the launch data by reference in the source;
        here it returns the updated data, and `dataOut == Launched(...)` is
        what pins down that starter ran once per index, in ascending order.
        `calls` only records the index of each call. The final wait for the
        workers is not modelled. */
    method Startup<D>(toLaunch: int, starter: (int, D) -> D, data: D)
      returns (calls: seq<int>, dataOut: D)
      modifies this
      ensures gpuCount == toLaunch && count == 0
      ensures |calls| == (if toLaunch > 0 then toLaunch else 0)
      ensures forall k :: 0 <= k < |calls| ==> calls[k] == k
      ensures dataOut == Launched(starter, data, |calls|)
    {
      gpuCount := toLaunch;
      count := 0;
      calls, dataOut := [], data;
      var i := 0;
      while i < toLaunch
        invariant gpuCount == toLaunch && count == 0
        invariant 0 <= i <= (if toLaunch > 0 then toLaunch else 0)
        invariant |calls| == i
        invariant forall k :: 0 <= k < i ==> calls[k] == k
        invariant dataOut == Launched(starter, data, i)
      {
        dataOut := starter(i, dataOut);
        calls := calls + [i];
        i := i + 1;
      }
    }
  }

  /** The command slot of one device's worker. */
  class GPUWorkerCommunicator {
    const workerSync: GPUWorkerSync
    const reconstruction: Reconstruction
    /** The stage tag; IdleStep until the first prepare call. */
    var step: int
    /** The index of the device this worker drives. */
    const gpu: int

    var cpuPsf: Ptr
    var psfSize: UInt3
    var sliceVoxelDim: Float3
    var psfDim: Float3
    var psfI2W: Matrix4
    var psfW2I: Matrix4
    var qualityFactor: real
    var sliceDims: Ref?<seq<Float3>>
    var sliceDim: Ref?<seq<int>>
    var allocate: bool
    var matSliceTransforms: Ref?<seq<Matrix4>>
    var matInvSliceTransforms: Ref?<seq<Matrix4>>
    var matsI2WInit: Ref?<seq<Matrix4>>
    var matsW2IInit: Ref?<seq<Matrix4>>
    var matsI2W: Ref?<seq<Matrix4>>
    var matsW2I: Ref?<seq<Matrix4>>
    var reconI2W: Matrix4
    var reconW2I: Matrix4
    var allocSetSliceMatrices: bool
    var s: UInt3
    var dim: Float3
    var data: Ptr
    var sigmaBias: real
    var slicesWeights: Ref?<seq<real>>
    var scales: Ref?<seq<real>>
    var size: UInt3
    var end: int
    var start: int
    var sdata: Ptr
    var dLdata: Ptr
    var ldata: Ptr
    var sizesX: Ref?<seq<int>>
    var sizesY: Ref?<seq<int>>
    var vsize: UInt3
    var globalBiasCorrection: real
    var dLbiasData: Ptr
    var n: int
    var devAddonAccbuf: Ref?<VolumeData>
    var devCmapAccbuf: Ref?<VolumeData>
    var original: Ref?<VolumeData>
    var devReconstructedAccbuf: Ref?<VolumeData>
    var voxelNum: Ref?<int>
    var iter: int
    var devBiasAccbuf: Ref?<VolumeData>
    var devVolumeWeightsAccbuf: Ref?<VolumeData>
    var sliceInside: BoolIter
    var m: real
    var sigma: real
    var mix: real
    var slicePotential: Ref?<seq<real>>
    var dLweightsData: Ptr
    var results: Ref?<MStepResults>
    var scaleVec: Ref?<seq<real>>
    var ofsSlice: Ref?<seq<Matrix4>>
    var hTrans: Ref?<seq<Matrix4>>
    var globalSlice: int
    var init: bool
    var slicesResampledI2W: Ref?<seq<Matrix4>>
    var debug: bool

    /** A fresh mailbox is idle and bound to its device; the C++ constructor
        leaves every payload field uninitialised, so nothing is promised
        about them. */
    constructor (reconstruction: Reconstruction, workerSync: GPUWorkerSync, gpu: int)
      ensures step == IdleStep && this.gpu == gpu
      ensures this.reconstruction == reconstruction && this.workerSync == workerSync
    {
      this.reconstruction := reconstruction;
      this.workerSync := workerSync;
      step := IdleStep;
      this.gpu := gpu;
    }

    /** Step 1. Every argument is copied except psfW2I: the source never
        assigns _PSFW2I, so the worker reads whatever it held before. */
    method PrepareGeneratePSFVolume(cpuPsf: Ptr, psfSize: UInt3, sliceVoxelDim: Float3,
                                    psfDim: Float3, psfI2W: Matrix4, psfW2I: Matrix4,
                                    qualityFactor: real)
      modifies this`step, this`cpuPsf, this`psfSize, this`sliceVoxelDim, this`psfDim,
               this`psfI2W, this`qualityFactor
      ensures step == StageTag(GeneratePSFVolume)
      ensures this.cpuPsf == cpuPsf && this.psfSize == psfSize &&
              this.sliceVoxelDim == sliceVoxelDim && this.psfDim == psfDim &&
              this.psfI2W == psfI2W && this.qualityFactor == qualityFactor
      ensures this.psfW2I == old(this.psfW2I)
    {
      step := 1;
      this.cpuPsf := cpuPsf; this.psfSize := psfSize; this.sliceVoxelDim := sliceVoxelDim;
      this.psfDim := psfDim; this.psfI2W := psfI2W; this.qualityFactor := qualityFactor;
    }

    /** Step 1 as evidently intended: psfW2I is stored as well. */
    method PrepareGeneratePSFVolumeIntended(cpuPsf: Ptr, psfSize: UInt3, sliceVoxelDim: Float3,
                                            psfDim: Float3, psfI2W: Matrix4, psfW2I: Matrix4,
                                            qualityFactor: real)
      modifies this`step, this`cpuPsf, this`psfSize, this`sliceVoxelDim, this`psfDim,
               this`psfI2W, this`psfW2I, this`qualityFactor
      ensures step == StageTag(GeneratePSFVolume)
      ensures this.cpuPsf == cpuPsf && this.psfSize == psfSize &&
              this.sliceVoxelDim == sliceVoxelDim && this.psfDim == psfDim &&
              this.psfI2W == psfI2W && this.psfW2I == psfW2I &&
              this.qualityFactor == qualityFactor
    {
      step := 1;
      this.cpuPsf := cpuPsf; this.psfSize := psfSize; this.sliceVoxelDim := sliceVoxelDim;
      this.psfDim := psfDim; this.psfI2W := psfI2W; this.psfW2I := psfW2I;
      this.qualityFactor := qualityFactor;
    }

    /** Step 2: keeps the addresses of both vectors and the allocation flag. */
    method PrepareSetSliceDims(sliceDims: Ref<seq<Float3>>, sliceDim: Ref<seq<int>>, allocate: bool)
      modifies this`step, this`sliceDims, this`sliceDim, this`allocate
      ensures step == StageTag(SetSliceDims)
      ensures this.sliceDims == sliceDims && this.sliceDim == sliceDim &&
              this.allocate == allocate
    {
      step := 2;
      this.sliceDims := sliceDims; this.sliceDim := sliceDim; this.allocate := allocate;
    }

    /** Step 3: keeps the addresses of the six matrix vectors, copies the two
        reconstruction matrices and the allocation flag. */
    method PrepareSetSliceMatrices(matSliceTransforms: Ref<seq<Matrix4>>,
                                   matInvSliceTransforms: Ref<seq<Matrix4>>,
                                   matsI2WInit: Ref<seq<Matrix4>>, matsW2IInit: Ref<seq<Matrix4>>,
                                   matsI2W: Ref<seq<Matrix4>>, matsW2I: Ref<seq<Matrix4>>,
                                   reconI2W: Matrix4, reconW2I: Matrix4, alloc: bool)
      modifies this`step, this`matSliceTransforms, this`matInvSliceTransforms, this`matsI2WInit,
               this`matsW2IInit, this`matsI2W, this`matsW2I, this`reconI2W, this`reconW2I,
               this`allocSetSliceMatrices
      ensures step == StageTag(SetSliceMatrices)
      ensures this.matSliceTransforms == matSliceTransforms &&
              this.matInvSliceTransforms == matInvSliceTransforms &&
              this.matsI2WInit == matsI2WInit && this.matsW2IInit == matsW2IInit &&
              this.matsI2W == matsI2W && this.matsW2I == matsW2I && this.reconI2W == reconI2W &&
              this.reconW2I == reconW2I && this.allocSetSliceMatrices == alloc
    {
      step := 3;
      this.matSliceTransforms := matSliceTransforms;
      this.matInvSliceTransforms := matInvSliceTransforms;
      this.matsI2WInit := matsI2WInit; this.matsW2IInit := matsW2IInit;
      this.matsI2W := matsI2W; this.matsW2I := matsW2I;
      this.reconI2W := reconI2W; this.reconW2I := reconW2I;
      allocSetSliceMatrices := alloc;
    }

    /** Step 4. */
    method PrepareSetMask(s: UInt3, dim: Float3, data: Ptr, sigmaBias: real)
      modifies this`step, this`s, this`dim, this`data, this`sigmaBias
      ensures step == StageTag(SetMask)
      ensures this.s == s && this.dim == dim && this.data == data && this.sigmaBias == sigmaBias
    {
      step := 4;
      this.s := s; this.dim := dim; this.data := data; this.sigmaBias := sigmaBias;
    }

    /** Step 5: the same four fields as step 4. */
    method PrepareInitReconstructionVolume(s: UInt3, dim: Float3, data: Ptr, sigmaBias: real)
      modifies this`step, this`s, this`dim, this`data, this`sigmaBias
      ensures step == StageTag(InitReconstructionVolume)
      ensures this.s == s && this.dim == dim && this.data == data && this.sigmaBias == sigmaBias
    {
      step := 5;
      this.s := s; this.dim := dim; this.data := data; this.sigmaBias := sigmaBias;
    }

    /** Step 6. */
    method PrepareUpdateSliceWeights(slicesWeights: Ref<seq<real>>)
      modifies this`step, this`slicesWeights
      ensures step == StageTag(UpdateSliceWeights)
      ensures this.slicesWeights == slicesWeights
    {
      step := 6;
      this.slicesWeights := slicesWeights;
    }

    /** Step 7: shares _slices_weights with step 6 and _allocate with step 2. */
    method PrepareUpdateScaleVector(scales: Ref<seq<real>>, slicesWeights: Ref<seq<real>>, alloc: bool)
      modifies this`step, this`scales, this`slicesWeights, this`allocate
      ensures step == StageTag(UpdateScaleVector)
      ensures this.scales == scales && this.slicesWeights == slicesWeights &&
              this.allocate == alloc
    {
      step := 7;
      this.scales := scales; this.slicesWeights := slicesWeights; allocate := alloc;
    }

    /** Step 8: the device's slice range [start, end). */
    method PrepareInitStorageVolumes(size: UInt3, dim: Float3, start: int, end: int)
      modifies this`step, this`size, this`dim, this`start, this`end
      ensures step == StageTag(InitStorageVolumes)
      ensures this.size == size && this.dim == dim && this.start == start && this.end == end
    {
      step := 8;
      this.size := size; this.dim := dim;
      this.start := start; this.end := end;
    }

    /** Step 9. */
    method PrepareFillSlices(sdata: Ptr, sizesX: Ref<seq<int>>, sizesY: Ref<seq<int>>,
                             dLdata: Ptr, ldata: Ptr, alloc: bool)
      modifies this`step, this`sdata, this`sizesX, this`sizesY, this`allocate, this`dLdata,
               this`ldata
      ensures step == StageTag(FillSlices)
      ensures this.sdata == sdata && this.sizesX == sizesX && this.sizesY == sizesY &&
              this.allocate == alloc && this.dLdata == dLdata && this.ldata == ldata
    {
      step := 9;
      this.sdata := sdata; this.sizesX := sizesX; this.sizesY := sizesY; allocate := alloc;
      this.dLdata := dLdata; this.ldata := ldata;
    }

    /** Step 10. */
    method PrepareUpdateReconstructed(vsize: UInt3, data: Ptr)
      modifies this`step, this`vsize, this`data
      ensures step == StageTag(UpdateReconstructed)
      ensures this.vsize == vsize && this.data == data
    {
      step := 10;
      this.vsize := vsize; this.data := data;
    }

    /** Step 11. The bool flag is stored in a float field, which C++ converts
        to 1.0 for true and 0.0 for false. */
    method PrepareCorrectBias(sigmaBias: real, globalBiasCorrection: bool, dLbiasData: Ptr)
      modifies this`step, this`sigmaBias, this`globalBiasCorrection, this`dLbiasData
      ensures step == StageTag(CorrectBias)
      ensures this.sigmaBias == sigmaBias &&
              this.globalBiasCorrection == (if globalBiasCorrection then 1.0 else 0.0) &&
              this.dLbiasData == dLbiasData
    {
      step := 11;
      this.sigmaBias := sigmaBias;
      this.globalBiasCorrection := if globalBiasCorrection then 1.0 else 0.0;
      this.dLbiasData := dLbiasData;
    }

    /** Step 12. */
    method PrepareSuperresolution(n: int, devAddonAccbuf: Ref<VolumeData>,
                                  devCmapAccbuf: Ref<VolumeData>, original: Ref<VolumeData>)
      modifies this`step, this`devAddonAccbuf, this`devCmapAccbuf, this`original, this`n
      ensures step == StageTag(Superresolution)
      ensures this.devAddonAccbuf == devAddonAccbuf && this.devCmapAccbuf == devCmapAccbuf &&
              this.original == original && this.n == n
    {
      step := 12;
      this.devAddonAccbuf := devAddonAccbuf;
      this.devCmapAccbuf := devCmapAccbuf;
      this.original := original;
      this.n := n;
    }

    /** Step 14. */
    method PrepareGaussianReconstruction1(voxelNum: Ref<int>, devReconstructedAccbuf: Ref<VolumeData>)
      modifies this`step, this`devReconstructedAccbuf, this`voxelNum
      ensures step == StageTag(GaussianReconstruction1)
      ensures this.devReconstructedAccbuf == devReconstructedAccbuf && this.voxelNum == voxelNum
    {
      step := 14;
      this.devReconstructedAccbuf := devReconstructedAccbuf;
      this.voxelNum := voxelNum;
    }

    /** Step 15. */
    method PrepareGaussianReconstruction2(voxelNum: Ref<int>)
      modifies this`step, this`voxelNum
      ensures step == StageTag(GaussianReconstruction2)
      ensures this.voxelNum == voxelNum
    {
      step := 15;
      this.voxelNum := voxelNum;
    }

    /** Step 16. */
    method PrepareNormaliseBias(iter: int, devBiasAccbuf: Ref<VolumeData>, sigmaBias: real)
      modifies this`step, this`iter, this`devBiasAccbuf, this`sigmaBias
      ensures step == StageTag(NormaliseBias)
      ensures this.iter == iter && this.devBiasAccbuf == devBiasAccbuf &&
              this.sigmaBias == sigmaBias
    {
      step := 16;
      this.iter := iter;
      this.devBiasAccbuf := devBiasAccbuf;
      this.sigmaBias := sigmaBias;
    }

    /** Step 17: the iterator is copied by value. */
    method PrepareSimulateSlices(sliceInside: BoolIter)
      modifies this`step, this`sliceInside
      ensures step == StageTag(SimulateSlices)
      ensures this.sliceInside == sliceInside
    {
      step := 17;
      this.sliceInside := sliceInside;
    }

    /** Step 18. The source assigns _m to itself, so the mean m is dropped and
        the worker reads the mean of an earlier call. */
    method PrepareEStep(m: real, sigma: real, mix: real, slicePotential: Ref<seq<real>>,
                        dLweightsData: Ptr)
      modifies this`step, this`m, this`sigma, this`mix, this`slicePotential, this`dLweightsData
      ensures step == StageTag(EStep)
      ensures this.m == old(this.m)
      ensures this.sigma == sigma && this.mix == mix && this.slicePotential == slicePotential &&
              this.dLweightsData == dLweightsData
    {
      step := 18;
      this.m := this.m;
      this.sigma := sigma;
      this.mix := mix;
      this.slicePotential := slicePotential;
      this.dLweightsData := dLweightsData;
    }

    /** Step 18 as evidently intended: the mean is stored too. */
    method PrepareEStepIntended(m: real, sigma: real, mix: real, slicePotential: Ref<seq<real>>,
                                dLweightsData: Ptr)
      modifies this`step, this`m, this`sigma, this`mix, this`slicePotential, this`dLweightsData
      ensures step == StageTag(EStep)
      ensures this.m == m && this.sigma == sigma && this.mix == mix &&
              this.slicePotential == slicePotential && this.dLweightsData == dLweightsData
    {
      step := 18;
      this.m := m;
      this.sigma := sigma;
      this.mix := mix;
      this.slicePotential := slicePotential;
      this.dLweightsData := dLweightsData;
    }

    /** Step 19. */
    method PrepareMStep(results: Ref<MStepResults>)
      modifies this`step, this`results
      ensures step == StageTag(MStep)
      ensures this.results == results
    {
      step := 19;
      this.results := results;
    }

    /** Step 20. */
    method PrepareCalculateScaleVector(scaleVec: Ref<seq<real>>)
      modifies this`step, this`scaleVec
      ensures step == StageTag(CalculateScaleVector)
      ensures this.scaleVec == scaleVec
    {
      step := 20;
      this.scaleVec := scaleVec;
    }

    /** Step 21: only the tag changes. */
    method PrepareInitializeEMValues()
      modifies this`step
      ensures step == StageTag(InitializeEMValues)
    {
      step := 21;
    }

    /** Step 22. */
    method PreparePrepareSliceToVolumeReg(allocate: bool)
      modifies this`step, this`allocate
      ensures step == StageTag(PrepareSliceToVolumeReg)
      ensures this.allocate == allocate
    {
      step := 22;
      this.allocate := allocate;
    }

    /** Step 23. */
    method PrepareUpdateResampledSlicesI2W(ofsSlice: Ref<seq<Matrix4>>, allocate: bool)
      modifies this`step, this`ofsSlice, this`allocate
      ensures step == StageTag(UpdateResampledSlicesI2W)
      ensures this.ofsSlice == ofsSlice && this.allocate == allocate
    {
      step := 23;
      this.ofsSlice := ofsSlice;
      this.allocate := allocate;
    }

    /** Step 24. */
    method PrepareRegisterSlicesToVolume1(globalSlice: int, hTrans: Ref<seq<Matrix4>>)
      modifies this`step, this`globalSlice, this`hTrans
      ensures step == StageTag(RegisterSlicesToVolume1)
      ensures this.globalSlice == globalSlice && this.hTrans == hTrans
    {
      step := 24;
      this.globalSlice := globalSlice;
      this.hTrans := hTrans;
    }

    /** Step 25: only the tag changes. */
    method PrepareRegisterSlicesToVolume2()
      modifies this`step
      ensures step == StageTag(RegisterSlicesToVolume2)
    {
      step := 25;
    }

    /** Step 26. */
    method PrepareInitRegStorageVolumes(size: UInt3, dim: Float3, init: bool)
      modifies this`step, this`size, this`dim, this`init
      ensures step == StageTag(InitRegStorageVolumes)
      ensures this.size == size && this.dim == dim && this.init == init
    {
      step := 26;
      this.size := size;
      this.dim := dim;
      this.init := init;
    }

    /** Step 27. */
    method PrepareFillRegSlices(sdata: Ptr, slicesResampledI2W: Ref<seq<Matrix4>>, allocate: bool)
      modifies this`step, this`sdata, this`slicesResampledI2W, this`allocate
      ensures step == StageTag(FillRegSlices)
      ensures this.sdata == sdata && this.slicesResampledI2W == slicesResampledI2W &&
              this.allocate == allocate
    {
      step := 27;
      this.sdata := sdata;
      this.slicesResampledI2W := slicesResampledI2W;
      this.allocate := allocate;
    }
  }

  /** Preparing a mask and preparing the reconstruction volume from the same
      arguments write the same values into the same four fields; only the
      tags differ. Every other field keeps its value, by the two frames. */
  method MaskAndVolumeInitAgree(a: GPUWorkerCommunicator, b: GPUWorkerCommunicator,
                                s: UInt3, dim: Float3, data: Ptr, sigmaBias: real)
    requires a != b
    modifies a, b
    ensures a.s == b.s && a.dim == b.dim && a.data == b.data && a.sigmaBias == b.sigmaBias
    ensures a.step == StageTag(SetMask) == 4 && b.step == StageTag(InitReconstructionVolume) == 5
  {
    a.PrepareSetMask(s, dim, data, sigmaBias);
    b.PrepareInitReconstructionVolume(s, dim, data, sigmaBias);
  }

  /** The E-step mailbox never delivers a mean that differs from the one it
      already held: the worker cannot see the m it was given. */
  method EStepDropsMean(c: GPUWorkerCommunicator, m: real, sigma: real, mix: real,
                        slicePotential: Ref<seq<real>>, dLweightsData: Ptr)
    returns (delivered: real)
    requires c.m != m
    modifies c
    ensures c.step == StageTag(EStep) && delivered == c.m && delivered != m
    ensures delivered == old(c.m)
  {
    c.PrepareEStep(m, sigma, mix, slicePotential, dLweightsData);
    delivered := c.m;
  }

  /** The PSF mailbox does not deliver a world-to-image matrix that differs
      from the one it already held. */
  method PsfDropsW2I(c: GPUWorkerCommunicator, cpuPsf: Ptr, psfSize: UInt3,
                     sliceVoxelDim: Float3, psfDim: Float3, psfI2W: Matrix4, psfW2I: Matrix4,
                     qualityFactor: real)
    returns (delivered: Matrix4)
    requires c.psfW2I != psfW2I
    modifies c
    ensures c.step == StageTag(GeneratePSFVolume) && delivered == c.psfW2I && delivered != psfW2I
    ensures delivered == old(c.psfW2I)
  {
    c.PrepareGeneratePSFVolume(cpuPsf, psfSize, sliceVoxelDim, psfDim, psfI2W, psfW2I, qualityFactor);
    delivered := c.psfW2I;
  }
}
