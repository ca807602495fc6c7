/** The output guards and the point-registration lifecycle of two IRTK
    registration filters: irtkModelAffineRegistration and
    irtkSurfaceRigidRegistration.

    A filter's output is a transformation, identified by the class name its
    NameOfClass() reports. SetOutput accepts only one kind of transformation;
    on any other it writes a diagnostic and calls exit(0). The model returns
    that end of the program as an Exit outcome carrying the diagnostic and the
    exit status, and leaves the filter's state as it was. */
module Registration {

  /** How a call ends: normally, or by printing `message` and exiting the
      process with `status`. */
  datatype Outcome = Done | Exit(message: string, status: int)

  const AffineTransformationName: string := "irtkAffineTransformation"
  const RigidTransformationName: string := "irtkRigidTransformation"

  /** An irtkTransformation, seen through its class name. Filters keep a
      pointer to it, so it is an object. */
  class Transformation {
    const className: string

    constructor (className: string)
      ensures this.className == className
    {
      this.className := className;
    }
  }

  /** The helper registration that a surface rigid registration creates. Its
      algorithm is not part of this model; `live` says whether it has been
      created and not yet deleted. */
  class PointRigidRegistration {
    var live: bool

    constructor ()
      ensures live
    {
      live := true;
    }
  }

  class ModelAffineRegistration {
    /** _transformation, inherited from the base filter. */
    var transformation: Transformation?

    /** The base constructors are not part of this model; the filter starts
        without an output. */
    constructor ()
      ensures transformation == null
    {
      transformation := null;
    }

    /** The filter reports itself as irtkImageAffineRegistration, the name
        its SetOutput diagnostic also starts with, not under its own class
        name. */
    function NameOfClass(): (name: string)
      ensures name == "irtkImageAffineRegistration"
    {
      "irtkImageAffineRegistration"
    }

    /** Accepts exactly the affine transformations; anything else ends the
        program with exit status 0 before the output is assigned. */
    method SetOutput(t: Transformation) returns (outcome: Outcome)
      modifies this`transformation
      ensures outcome.Done? <==> t.className == AffineTransformationName
      ensures outcome.Done? ==> transformation == t
      ensures outcome.Exit? ==> transformation == old(transformation)
      ensures outcome.Exit? ==>
                outcome == Exit("irtkImageAffineRegistration::SetOutput: Transformation must be affine", 0)
    {
      if t.className != AffineTransformationName {
        return Exit("irtkImageAffineRegistration::SetOutput: Transformation must be affine", 0);
      }
      transformation := t;
      outcome := Done;
    }
  }

  /** The calls a surface rigid registration makes outside itself, in order. */
  datatype LifecycleEvent = BaseInitialize | CreatePointRegistration | DeletePointRegistration

  class SurfaceRigidRegistration {
    /** _transformation, inherited from the base filter. */
    var transformation: Transformation?
    /** _preg: the point-based registration used while the filter runs. */
    var preg: PointRigidRegistration?
    /** The external calls made so far. */
    ghost var trace: seq<LifecycleEvent>

    /** The base constructor is not part of this model; the filter starts
        without an output and without a point registration. */
    constructor ()
      ensures transformation == null && preg == null && trace == []
    {
      transformation := null;
      preg := null;
      trace := [];
    }

    function NameOfClass(): (name: string)
      ensures name == "irtkSurfaceRigidRegistration"
    {
      "irtkSurfaceRigidRegistration"
    }

    /** Accepts exactly the rigid transformations; anything else ends the
        program with exit status 0 before the output is assigned. */
    method SetOutput(t: Transformation) returns (outcome: Outcome)
      modifies this`transformation
      ensures outcome.Done? <==> t.className == RigidTransformationName
      ensures outcome.Done? ==> transformation == t
      ensures outcome.Exit? ==> transformation == old(transformation)
      ensures outcome.Exit? ==>
                outcome == Exit(NameOfClass() + "::SetOutput: Transformation must be rigid", 0)
    {
      if t.className != RigidTransformationName {
        return Exit(NameOfClass() + "::SetOutput: Transformation must be rigid", 0);
      }
      transformation := t;
      outcome := Done;
    }

    /** Initialises the base filter, then creates a new point registration.
        A point registration left from an earlier Initialize is not deleted:
        it stays live and unreachable from the filter. */
    method Initialize()
      modifies this`preg, this`trace
      ensures preg != null && fresh(preg) && preg.live
      ensures trace == old(trace) + [BaseInitialize, CreatePointRegistration]
    {
      trace := trace + [BaseInitialize];
      preg := new PointRigidRegistration();
      trace := trace + [CreatePointRegistration];
    }

    /** Deletes the point registration. A non-null one must still be live
        (deleting it twice is undefined); deleting NULL does nothing. The
        pointer itself is left as it was, dangling when it was non-null. */
    method Finalize()
      requires preg != null ==> preg.live
      modifies (if preg != null then {preg} else {}), this`trace
      ensures preg == old(preg)
      ensures old(preg) != null ==> !preg.live
      ensures trace == old(trace) + (if old(preg) != null then [DeletePointRegistration] else [])
    {
      if preg != null {
        preg.live := false;
        trace := trace + [DeletePointRegistration];
      }
    }
  }

  /** A full run of the lifecycle: Initialize makes Finalize callable, and the
      external calls happen in the order base initialisation, creation,
      deletion. A second Finalize would need the deleted registration live. */
  method RunLifecycle(r: SurfaceRigidRegistration)
    modifies r
    ensures r.transformation == old(r.transformation)
    ensures r.preg != null && !r.preg.live
    ensures r.trace == old(r.trace) + [BaseInitialize, CreatePointRegistration, DeletePointRegistration]
  {
    r.Initialize();
    r.Finalize();
  }
}
