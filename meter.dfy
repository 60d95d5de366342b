/**
 * The usage meter (instrumentation/meter.go): one record per process that
 * collects the command, the number of artifacts, the error code, the dev
 * loop iterations and the flags set. The record is a global struct updated in
 * place, modelled as an object. The platform, builder, sync and deployer names
 * that `InitMeter` reads from the YAML tags of the configuration, the start
 * time and the version are not part of this model.
 */
module Instrumentation {
  import Artifacts

  /** `proto.StatusCode`, whose zero value is `OK`. */
  type StatusCode = int
  const StatusOK: StatusCode := 0

  /** `devIteration`: why a dev loop iteration ran, and how it ended. */
  datatype DevIteration = DevIteration(intent: string, errorCode: StatusCode)

  /** A command-line flag: its name and value. */
  datatype Flag = Flag(name: string, value: string)

  /**
   * The iterations after `AddDevIterationErr(i, code)`: at `i` equal to the
   * count an `error` iteration is appended first; then the `i`-th iteration
   * takes the code.
   */
  function RecordError(its: seq<DevIteration>, i: nat, code: StatusCode): (r: seq<DevIteration>)
    requires i <= |its|
    ensures |r| == (if i == |its| then |its| + 1 else |its|)
    ensures r[i].errorCode == code
    ensures i < |its| ==> r[i].intent == its[i].intent
    ensures i == |its| ==> r[i].intent == "error"
    ensures forall j :: 0 <= j < |its| && j != i ==> r[j] == its[j]
  {
    var base := if |its| == i then its + [DevIteration("error", StatusOK)] else its;
    base[i := base[i].(errorCode := code)]
  }

  /** Recording an error twice at the same place keeps only the second code, and never adds a second iteration. */
  lemma RecordErrorLastWins(its: seq<DevIteration>, i: nat, c1: StatusCode, c2: StatusCode)
    requires i <= |its|
    ensures i <= |RecordError(its, i, c1)|
    ensures RecordError(RecordError(its, i, c1), i, c2) == RecordError(its, i, c2)
  {
    var once, twice, direct := RecordError(its, i, c1), RecordError(RecordError(its, i, c1), i, c2), RecordError(its, i, c2);
    assert |twice| == |direct|;
    forall j | 0 <= j < |direct|
      ensures twice[j] == direct[j]
    {
      if j == i {
        assert twice[j].intent == once[j].intent;
      }
    }
  }

  /** The meter: the fields of `skaffoldMeter` this model keeps. */
  class Meter {
    var exitCode: int
    var buildArtifacts: int
    var command: string
    var errorCode: StatusCode
    var devIterations: seq<DevIteration>
    var enumFlags: map<string, Flag>

    /** The initial meter: nothing recorded, exit and error codes zero. */
    constructor ()
      ensures exitCode == 0 && buildArtifacts == 0 && command == "" && errorCode == StatusOK
      ensures devIterations == [] && enumFlags == map[]
    {
      exitCode := 0;
      buildArtifacts := 0;
      command := "";
      errorCode := StatusOK;
      devIterations := [];
      enumFlags := map[];
    }

    /** `InitMeter`: the command, and the number of configured artifacts. */
    method InitMeter(cmd: string, artifacts: seq<Artifacts.Artifact>)
      modifies this`command, this`buildArtifacts
      ensures command == cmd && buildArtifacts == |artifacts|
    {
      command := cmd;
      buildArtifacts := |artifacts|;
    }

    /** `SetErrorCode`: the one error code of the run is overwritten. */
    method SetErrorCode(code: StatusCode)
      modifies this`errorCode
      ensures errorCode == code
    {
      errorCode := code;
    }

    /** `AddDevIteration`: one more iteration, with the intent and the zero code. */
    method AddDevIteration(intent: string)
      modifies this`devIterations
      ensures devIterations == old(devIterations) + [DevIteration(intent, StatusOK)]
    {
      devIterations := devIterations + [DevIteration(intent, StatusOK)];
    }

    /** `AddDevIterationErr`: an index past the end is out of range in the source, so it is excluded. */
    method AddDevIterationErr(i: nat, code: StatusCode)
      requires i <= |devIterations|
      modifies this`devIterations
      ensures devIterations == RecordError(old(devIterations), i, code)
    {
      if |devIterations| == i {
        devIterations := devIterations + [DevIteration("error", StatusOK)];
      }
      devIterations := devIterations[i := devIterations[i].(errorCode := code)];
    }

    /** `AddFlag`: the flag is kept under its name, replacing one of the same name. */
    method AddFlag(f: Flag)
      modifies this`enumFlags
      ensures enumFlags == old(enumFlags)[f.name := f]
    {
      enumFlags := enumFlags[f.name := f];
    }
  }
}
