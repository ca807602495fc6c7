# Worker mailbox, path basename and registration output guards

This project models three small parts of a GPU-accelerated motion-corrected
fetal MRI reconstruction. The code is written in C++ and builds on the
Image Registration Toolkit (IRTK).

- **GPUWorker** (`gpu_worker.dfy`): the per-device command slot
  `GPUWorkerCommunicator` and the sequential part of the round bookkeeping
  in `GPUWorkerSync`.
  - The controller prepares a worker for one pipeline stage by calling one of
    the 26 `prepare*` methods. The method writes the stage's numeric tag into
    `step` (tags 1–12 and 14–27) and copies its arguments into that stage's
    fields. For reference arguments it copies their addresses.
  - The model is a class with one field per C++ field. Each prepare method's
    `modifies` clause names exactly the fields it writes, so every other field
    is unchanged by construction. Its `ensures` gives the new tag and the new
    value of each written field.
  - The tags are tied to a `Stage` datatype. They are proved distinct, and
    proved never to be 13 or the idle value -2.
  - `GPUWorkerSync.Startup` records the round size and resets the completion
    counter. It then calls the starter once per device index, in ascending
    order. It returns the indices it called the starter with, and the launch
    data after those calls.
- **Basename** (`basename.dfy`): `basename2`, the text after the last `/`
  of a path, or the whole path when it has no `/`.
  - It is a function on `seq<char>` whose contract characterises the result
    completely: the longest suffix of the input that has no `/`.
  - Lemmas give the equivalence with an independent definition, the cases
    with and without a `/`, a trailing `/`, idempotence, and the round trip
    `basename2(dir + "/" + name) == name`.
- **Registration** (`registration.dfy`): `SetOutput` and `NameOfClass` of
  `irtkModelAffineRegistration`, and `NameOfClass`, `SetOutput`,
  `Initialize` and `Finalize` of `irtkSurfaceRigidRegistration`.
  - A transformation is an object with a class name.
  - `exit(0)` after a rejected output becomes an `Exit` outcome that carries
    the diagnostic and the status 0.
  - `_preg` is a nullable reference to a point registration object with a
    `live` flag. `Finalize` requires a non-null one to be live; on NULL it does nothing.

How C++ payload types are modelled:

- Payload values in the mailbox are only copied, never computed. `float`
  becomes `real`, `int` becomes `int`, and `uint3`/`float3` become triples.
- `Matrix4` becomes its entries, a raw pointer becomes its address
  (`Ptr`), and a `std::vector<bool>::iterator` becomes a vector and a
  position.
- An object whose address a prepare method keeps (a `std::vector`, a
  `Volume<float>`, an `int`, the M-step tuple) is a Dafny object of class
  `Ref<T>`. "Stores a reference to the argument" is then reference equality.

## Model

| member | source | states |
|---|---|---|
| Basename.LastSlash | source/IRTKSimple2/common++/src/basename.cc:19 | `strrchr(s, '/')` as an index: -1 when there is no `/`, otherwise a position holding `/` with no `/` after it |
| Basename.Basename2 | source/IRTKSimple2/common++/src/basename.cc:17-21 | the result is a suffix of the input and contains no `/`. When shorter than the input, it is preceded by a `/`, so it is exactly the text after the last `/` |
| Basename.BasenameUnique | source/IRTKSimple2/common++/src/basename.cc:19-20 | at most one suffix has those three properties, so the contract of Basename2 determines its result |
| Basename.BasenameCharacterized | source/IRTKSimple2/common++/src/basename.cc:17-21 | a string is the longest slash-free suffix of the input if and only if it is `Basename2` of the input |
| Basename.NoSlashIsWhole | source/IRTKSimple2/common++/src/basename.cc:19-20 | a path without `/` is returned whole |
| Basename.AfterLastSlash | source/IRTKSimple2/common++/src/basename.cc:19-20 | when position i holds the last `/`, the result is exactly the characters after i |
| Basename.TrailingSlashIsEmpty | source/IRTKSimple2/common++/src/basename.cc:19-20 | a path ending in `/` yields the empty string |
| Basename.Idempotent | source/IRTKSimple2/common++/src/basename.cc:17-21 | applying basename2 to its own result returns that result |
| Basename.JoinRoundTrip | source/IRTKSimple2/common++/src/basename.cc:17-21 | joining any directory and a slash-free name with `/` and taking the basename gives the name back |
| GPUWorker.StageTag | source/reconstructionGPU2/include/GPUWorker.h:198-364 | every stage's tag lies in 1..27, is never 13 and is never the idle tag -2 |
| GPUWorker.StageOf | source/reconstructionGPU2/include/GPUWorker.h:130-188 | a tag names a stage exactly when it is in 1..27 and is not 13 |
| GPUWorker.StageTagRoundTrip | source/reconstructionGPU2/include/GPUWorker.h:198-364 | reading back the tag a stage writes gives that stage |
| GPUWorker.StageOfRoundTrip | source/reconstructionGPU2/include/GPUWorker.h:130-188 | every tag that names a stage is the tag that stage writes |
| GPUWorker.StageTagInjective | source/reconstructionGPU2/include/GPUWorker.h:198-364 | no two prepare methods write the same tag |
| GPUWorker.UnusedTags | source/reconstructionGPU2/include/GPUWorker.h:193 | the idle tag -2 and tag 13 name no stage |
| GPUWorker.GPUWorkerSync.constructor | source/reconstructionGPU2/include/GPUWorker.h:85 | a new sync object has `GPU_count == 0` and `count == 0` |
| GPUWorker.GPUWorkerSync.Startup | source/reconstructionGPU2/include/GPUWorker.h:90-113 | sets `GPU_count` to the requested count and `count` to 0. Calls the starter once for each index 0..n-1 in ascending order, none when n <= 0, and threads the launch data through those calls |
| GPUWorker.GPUWorkerCommunicator.constructor | source/reconstructionGPU2/include/GPUWorker.h:193-194 | a new communicator has `step == -2` and keeps the given GPU index, reconstruction and sync object |
| GPUWorker.GPUWorkerCommunicator.PrepareGeneratePSFVolume | source/reconstructionGPU2/include/GPUWorker.h:195-200 | tag 1. Copies every argument except `PSFW2I`, whose field keeps its previous value. Nothing else changes |
| GPUWorker.GPUWorkerCommunicator.PrepareGeneratePSFVolumeIntended | source/reconstructionGPU2/include/GPUWorker.h:195-200 | tag 1 with all seven arguments stored, `PSFW2I` included |
| GPUWorker.GPUWorkerCommunicator.PrepareSetSliceDims | source/reconstructionGPU2/include/GPUWorker.h:202-206 | tag 2. Keeps the addresses of both vectors and the allocate flag. Nothing else changes |
| GPUWorker.GPUWorkerCommunicator.PrepareSetSliceMatrices | source/reconstructionGPU2/include/GPUWorker.h:208-215 | tag 3. Keeps the six vector addresses and copies both reconstruction matrices and the flag |
| GPUWorker.GPUWorkerCommunicator.PrepareSetMask | source/reconstructionGPU2/include/GPUWorker.h:217-221 | tag 4. Writes `_s`, `_dim`, `_data`, `_sigma_bias` |
| GPUWorker.GPUWorkerCommunicator.PrepareInitReconstructionVolume | source/reconstructionGPU2/include/GPUWorker.h:223-227 | tag 5. Writes the same four fields as tag 4 with the same values |
| GPUWorker.GPUWorkerCommunicator.PrepareUpdateSliceWeights | source/reconstructionGPU2/include/GPUWorker.h:229-233 | tag 6. Keeps the weights vector's address |
| GPUWorker.GPUWorkerCommunicator.PrepareUpdateScaleVector | source/reconstructionGPU2/include/GPUWorker.h:235-239 | tag 7. Keeps both vector addresses and overwrites the shared `_allocate` |
| GPUWorker.GPUWorkerCommunicator.PrepareInitStorageVolumes | source/reconstructionGPU2/include/GPUWorker.h:241-246 | tag 8. Copies the size, the voxel dimensions and the slice range |
| GPUWorker.GPUWorkerCommunicator.PrepareFillSlices | source/reconstructionGPU2/include/GPUWorker.h:247-251 | tag 9. Copies the three pointers, keeps the two size vectors and sets `_allocate` |
| GPUWorker.GPUWorkerCommunicator.PrepareUpdateReconstructed | source/reconstructionGPU2/include/GPUWorker.h:253-257 | tag 10. Copies the volume size and overwrites `_data` |
| GPUWorker.GPUWorkerCommunicator.PrepareCorrectBias | source/reconstructionGPU2/include/GPUWorker.h:258-264 | tag 11. The bool flag lands in a float field as exactly 1.0 (true) or 0.0 (false) |
| GPUWorker.GPUWorkerCommunicator.PrepareSuperresolution | source/reconstructionGPU2/include/GPUWorker.h:265-272 | tag 12. Copies `N` and keeps the three volume addresses |
| GPUWorker.GPUWorkerCommunicator.PrepareGaussianReconstruction1 | source/reconstructionGPU2/include/GPUWorker.h:274-279 | tag 14. Keeps the accumulation volume and voxel counter addresses |
| GPUWorker.GPUWorkerCommunicator.PrepareGaussianReconstruction2 | source/reconstructionGPU2/include/GPUWorker.h:280-284 | tag 15. Keeps the voxel counter address |
| GPUWorker.GPUWorkerCommunicator.PrepareNormaliseBias | source/reconstructionGPU2/include/GPUWorker.h:286-292 | tag 16. Copies the iteration and sigma and keeps the bias volume address |
| GPUWorker.GPUWorkerCommunicator.PrepareSimulateSlices | source/reconstructionGPU2/include/GPUWorker.h:294-298 | tag 17. Copies the iterator |
| GPUWorker.GPUWorkerCommunicator.PrepareEStep | source/reconstructionGPU2/include/GPUWorker.h:300-309 | tag 18. Stores sigma, mix, the potential vector's address and the weights pointer. `_m` keeps its previous value, so the `m` argument is dropped |
| GPUWorker.GPUWorkerCommunicator.PrepareEStepIntended | source/reconstructionGPU2/include/GPUWorker.h:300-309 | tag 18 with the mean `m` stored as well |
| GPUWorker.GPUWorkerCommunicator.PrepareMStep | source/reconstructionGPU2/include/GPUWorker.h:311-315 | tag 19. Keeps the result tuple's address |
| GPUWorker.GPUWorkerCommunicator.PrepareCalculateScaleVector | source/reconstructionGPU2/include/GPUWorker.h:316-320 | tag 20. Keeps the scale vector's address |
| GPUWorker.GPUWorkerCommunicator.PrepareInitializeEMValues | source/reconstructionGPU2/include/GPUWorker.h:322-325 | tag 21. Nothing but the tag changes |
| GPUWorker.GPUWorkerCommunicator.PreparePrepareSliceToVolumeReg | source/reconstructionGPU2/include/GPUWorker.h:327-331 | tag 22. Sets `_allocate` |
| GPUWorker.GPUWorkerCommunicator.PrepareUpdateResampledSlicesI2W | source/reconstructionGPU2/include/GPUWorker.h:333-338 | tag 23. Keeps the offsets vector's address and sets `_allocate` |
| GPUWorker.GPUWorkerCommunicator.PrepareRegisterSlicesToVolume1 | source/reconstructionGPU2/include/GPUWorker.h:340-345 | tag 24. Copies the global slice index and keeps the transforms vector's address |
| GPUWorker.GPUWorkerCommunicator.PrepareRegisterSlicesToVolume2 | source/reconstructionGPU2/include/GPUWorker.h:346-349 | tag 25. Nothing but the tag changes |
| GPUWorker.GPUWorkerCommunicator.PrepareInitRegStorageVolumes | source/reconstructionGPU2/include/GPUWorker.h:351-357 | tag 26. Copies the size, the dimensions and the init flag |
| GPUWorker.GPUWorkerCommunicator.PrepareFillRegSlices | source/reconstructionGPU2/include/GPUWorker.h:358-364 | tag 27. Copies the slice pointer, keeps the matrices vector's address and sets `_allocate` |
| GPUWorker.MaskAndVolumeInitAgree | source/reconstructionGPU2/include/GPUWorker.h:217-227 | preparing a mask and preparing the reconstruction volume with the same arguments give equal values in the four written fields. Only the tags differ, 4 versus 5 |
| GPUWorker.EStepDropsMean | source/reconstructionGPU2/include/GPUWorker.h:300-309 | after preparing the E-step with a mean different from the stored one, the worker still reads the stored one |
| GPUWorker.PsfDropsW2I | source/reconstructionGPU2/include/GPUWorker.h:195-200 | after preparing the PSF stage with a world-to-image matrix different from the stored one, the worker still reads the stored one |
| Registration.ModelAffineRegistration.NameOfClass | source/IRTKSimple2/packages/registration/include/irtkModelAffineRegistration.h:54-57 | always the constant `"irtkImageAffineRegistration"` |
| Registration.ModelAffineRegistration.SetOutput | source/IRTKSimple2/packages/registration/include/irtkModelAffineRegistration.h:44-52 | accepts if and only if the class name is exactly `"irtkAffineTransformation"`. On acceptance the output becomes the argument. Otherwise the call ends in exit status 0 with the affine diagnostic, and the output is not assigned |
| Registration.SurfaceRigidRegistration.constructor | source/IRTKSimple2/packages/registration/src/irtkSurfaceRigidRegistration.cc:17-19 | a new filter has no output, no point registration and has recorded no lifecycle event |
| Registration.SurfaceRigidRegistration.NameOfClass | source/IRTKSimple2/packages/registration/src/irtkSurfaceRigidRegistration.cc:21-24 | always the constant `"irtkSurfaceRigidRegistration"` |
| Registration.SurfaceRigidRegistration.SetOutput | source/IRTKSimple2/packages/registration/src/irtkSurfaceRigidRegistration.cc:26-34 | accepts if and only if the class name is exactly `"irtkRigidTransformation"`. On acceptance the output becomes the argument. Otherwise the call ends in exit status 0 with `NameOfClass() + "::SetOutput: Transformation must be rigid"`, and the output is not assigned |
| Registration.SurfaceRigidRegistration.Initialize | source/IRTKSimple2/packages/registration/src/irtkSurfaceRigidRegistration.cc:36-43 | initialises the base filter first, then sets `_preg` to a newly allocated, live point registration |
| Registration.SurfaceRigidRegistration.Finalize | source/IRTKSimple2/packages/registration/src/irtkSurfaceRigidRegistration.cc:45-49 | deletes `_preg`. A non-null one must be live beforehand and is no longer live afterwards; a NULL one is a no-op, as `delete` of NULL is. The pointer is not reset |
| Registration.RunLifecycle | source/IRTKSimple2/packages/registration/src/irtkSurfaceRigidRegistration.cc:36-49 | `Initialize` followed by `Finalize` is always allowed and leaves the output untouched. The external calls run in the order base initialisation, creation, deletion |

## Findings

| source | as written | input that shows it | evidently intended | confidence | as-written member | corrected member |
|---|---|---|---|---|---|---|
| source/reconstructionGPU2/include/GPUWorker.h:303 | `_m = _m;` assigns the field to itself, so `prepareEStep` drops its `m` argument | a call with `m = 1` on a communicator whose `_m` is 0 leaves `_m == 0` | `_m = m;` | high; not executed | GPUWorker.EStepDropsMean | GPUWorker.GPUWorkerCommunicator.PrepareEStepIntended |
| source/reconstructionGPU2/include/GPUWorker.h:199 | `prepareGeneratePSFVolume` never assigns `_PSFW2I` | a call whose `PSFW2I` differs from the stored `_PSFW2I` leaves the stored matrix in place | `_PSFW2I = PSFW2I;` beside `_PSFI2W = PSFI2W;` | medium; not executed | GPUWorker.PsfDropsW2I | GPUWorker.GPUWorkerCommunicator.PrepareGeneratePSFVolumeIntended |

## Left out

- The mutexes, condition variables and the final `conditionController.wait` of `GPUWorkerSync::startup` are not modelled; they exist only for thread synchronisation. `Startup` models the state at the moment the worker lock is released.
- `GPUWorkerSync::completed`, `runNextRound` and `runNoSync` are declared in the header without bodies, so they are not modelled.
- `GPUWorkerCommunicator::execute` and `end` are declared without bodies and run device kernels. `operator()`, present only in Boost builds, just calls `execute()`. None of them is modelled.
- `volatile` on `step` and `count` concerns visibility between threads and is not modelled.
- GPUWorker.GPUWorkerSync.Startup: the starter is a function from index and launch data to launch data. Any other effect of the real starter, such as waking a worker thread, is not modelled.
- Integer fields are unbounded integers, and `float` payloads are reals. The mailbox only copies them, so neither 32-bit wrap-around nor rounding can arise.
- The C++ constructor of `GPUWorkerCommunicator` leaves the payload fields uninitialised. The model promises nothing about them.
- The C++ `bool` to `float` conversion in `prepareCorrectBias` is written out as 1.0 or 0.0.
- `Print`, the text written to `cerr` and the process termination of `exit(0)` are not modelled. The diagnostic and the status are returned in an `Exit` outcome instead.
- The base classes `irtkSurfaceRegistration` and `irtkModelRigidRegistration` are not part of this model. The `Initialize` of `irtkSurfaceRegistration` is recorded only as an event in a ghost trace. Their constructors are taken to leave no output and no point registration.
- `irtkPointRigidRegistration` is not part of this model beyond whether it is live. A second `Initialize` without `Finalize` leaves the first object live and unreachable, as the source leaks it.
- A C string is modelled by its characters before the terminating NUL. The pointer that `basename2` returns into its argument is modelled as the suffix it points to.
- source/reconstructionGPU2/stackMotionEstimator.cpp is not part of this model. It is a CULA SVD call, CUDA memory transfers and floating-point normalisation and thresholding.
- source/IRTKSimple2/geometry++/include/irtkScalarGaussianDxDy.h and source/IRTKSimple2/packages/registration/include/irtkSurfaceAffineRegistration.h are not part of this model. They hold declarations only, and the Gaussian evaluation is floating point.
