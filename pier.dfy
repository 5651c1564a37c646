/**
 * The orchestrator of backend-docker/pier/pier.go. The Docker calls it
 * makes go to a client package that is not part of this model; each call
 * is replaced by the engine's reply. The service list and the pier
 * package's own Service type are not part of this model either: services
 * are Db.Service values, and the list keeps them in the order they were
 * added.
 */
module Pier {
  import opened Wrappers
  import opened GoStrconv
  import opened Jobs
  import Db
  import Dckr

  const StagingVolumeName := "Volume Stage In"
  const StagingMountPath := "/volume"

  /** A volume mounted into a container; the third field is read-only. */
  datatype VolBind = VolBind(volume: string, path: string, readOnly: bool)

  /** The engine calls runJob makes, in order. */
  datatype EngineCall =
    | NewVolume
    | ExecuteImage(image: string, args: seq<string>, binds: seq<VolBind>, removeOnExit: bool)

  /** What a container run answered: its exit code and error. */
  datatype ExecReply = ExecReply(exitCode: int, err: Option<string>)

  /** The engine's replies to the four calls of one job, in order. */
  datatype Script = Script(
    inputVolume: Result<string, string>,
    staging: ExecReply,
    outputVolume: Result<string, string>,
    service: ExecReply)

  /** Where the pipeline stops: the final state, the output volume if one was made, and the calls made. */
  datatype PipelineEnd = PipelineEnd(state: JobState, outputVolume: Option<string>, calls: seq<EngineCall>)

  /** A failure with a wrapped engine error. */
  function Failed(context: string, err: string): JobState
  {
    JobState(Some(PierError(context, Some(err))), "Error")
  }

  function StagingCall(stagingImageID: string, inputPID: string, inputVolume: string): EngineCall
  {
    ExecuteImage(stagingImageID, [inputPID], [VolBind(inputVolume, StagingMountPath, false)], true)
  }

  function ServiceCall(service: Db.Service, inputVolume: string, outputVolume: string): EngineCall
    requires |service.input| > 0 && |service.output| > 0
  {
    ExecuteImage(service.imageID, [],
      [VolBind(inputVolume, service.input[0].path, true), VolBind(outputVolume, service.output[0].path, false)], true)
  }

  /**
   * runJob as a function of the engine's replies: input volume, staging
   * run, output volume, service run; the first failure ends the job.
   */
  function Pipeline(service: Db.Service, inputPID: string, stagingImageID: string, s: Script): PipelineEnd
    requires |service.input| > 0 && |service.output| > 0
  {
    match s.inputVolume
    case Failure(e) => PipelineEnd(Failed("Error while creating new input volume", e), None, [NewVolume])
    case Success(inVol) =>
      var staged := [NewVolume, StagingCall(stagingImageID, inputPID, inVol)];
      if s.staging.err.Some? then
        PipelineEnd(Failed("Data staging failed", s.staging.err.value), None, staged)
      else if s.staging.exitCode != 0 then
        PipelineEnd(JobState(None, "Data staging failed (exitCode = " + IntToString(s.staging.exitCode) + ")"), None, staged)
      else
        match s.outputVolume
        case Failure(e) => PipelineEnd(Failed("Error while creating new output volume", e), None, staged + [NewVolume])
        case Success(outVol) =>
          var all := staged + [NewVolume, ServiceCall(service, inVol, outVol)];
          if s.service.err.Some? then
            PipelineEnd(Failed("Service failed", s.service.err.value), Some(outVol), all)
          else if s.service.exitCode != 0 then
            PipelineEnd(JobState(None, "Service failed (exitCode = " + IntToString(s.service.exitCode) + ")"), Some(outVol), all)
          else
            PipelineEnd(JobState(None, "Ended successfully"), Some(outVol), all)
  }

  /** Every step answered without error and with exit code 0. */
  predicate AllStepsSucceed(s: Script)
  {
    && s.inputVolume.Success?
    && s.staging.err.None? && s.staging.exitCode == 0
    && s.outputVolume.Success?
    && s.service.err.None? && s.service.exitCode == 0
  }

  /** How many engine calls are made before the first failure stops the job. */
  function StepsRun(s: Script): nat
  {
    if s.inputVolume.Failure? then 1
    else if s.staging.err.Some? || s.staging.exitCode != 0 then 2
    else if s.outputVolume.Failure? then 3
    else 4
  }

  /** The four calls of a job whose every step succeeds. */
  function FullPlan(service: Db.Service, inputPID: string, stagingImageID: string, s: Script): seq<EngineCall>
    requires |service.input| > 0 && |service.output| > 0
  {
    var inVol := if s.inputVolume.Success? then s.inputVolume.value else "";
    var outVol := if s.outputVolume.Success? then s.outputVolume.value else "";
    [NewVolume, StagingCall(stagingImageID, inputPID, inVol), NewVolume, ServiceCall(service, inVol, outVol)]
  }

  /** A message that starts with something other than 'E' is neither "Error" nor "Ended successfully". */
  lemma IntMessagesDiffer(prefix: string, code: int)
    requires |prefix| > 0 && prefix[0] != 'E'
    ensures prefix + IntToString(code) + ")" != "Error"
    ensures prefix + IntToString(code) + ")" != "Ended successfully"
  {
    var m := prefix + IntToString(code) + ")";
    assert m[0] == prefix[0];
    assert "Error"[0] == 'E' && "Ended successfully"[0] == 'E';
  }

  /** The status is "Error" exactly when an engine error is recorded. */
  lemma ErrorIffErrorStatus(service: Db.Service, inputPID: string, stagingImageID: string, s: Script)
    requires |service.input| > 0 && |service.output| > 0
    ensures var e := Pipeline(service, inputPID, stagingImageID, s);
            e.state.error.Some? <==> e.state.status == "Error"
  {
    IntMessagesDiffer("Data staging failed (exitCode = ", s.staging.exitCode);
    IntMessagesDiffer("Service failed (exitCode = ", s.service.exitCode);
  }

  /** The job ends successfully exactly when every step succeeds. */
  lemma SuccessIffAllStepsSucceed(service: Db.Service, inputPID: string, stagingImageID: string, s: Script)
    requires |service.input| > 0 && |service.output| > 0
    ensures var e := Pipeline(service, inputPID, stagingImageID, s);
            e.state.status == "Ended successfully" <==> AllStepsSucceed(s)
  {
    IntMessagesDiffer("Data staging failed (exitCode = ", s.staging.exitCode);
    IntMessagesDiffer("Service failed (exitCode = ", s.service.exitCode);
  }

  /**
   * The steps run strictly in order and the first failure is final: the
   * calls made are the first StepsRun(s) calls of the full plan.
   */
  lemma StopsAtFirstFailure(service: Db.Service, inputPID: string, stagingImageID: string, s: Script)
    requires |service.input| > 0 && |service.output| > 0
    ensures var e := Pipeline(service, inputPID, stagingImageID, s);
            && |e.calls| == StepsRun(s)
            && e.calls == FullPlan(service, inputPID, stagingImageID, s)[..StepsRun(s)]
  {
  }

  /** A nonzero exit code gives a descriptive status and no error, not "Error". */
  lemma NonzeroExitStatus(service: Db.Service, inputPID: string, stagingImageID: string, s: Script)
    requires |service.input| > 0 && |service.output| > 0
    requires s.inputVolume.Success?
    ensures s.staging.err.None? && s.staging.exitCode != 0 ==>
              Pipeline(service, inputPID, stagingImageID, s).state
              == JobState(None, "Data staging failed (exitCode = " + IntToString(s.staging.exitCode) + ")")
    ensures s.staging.err.None? && s.staging.exitCode == 0 && s.outputVolume.Success?
            && s.service.err.None? && s.service.exitCode != 0 ==>
              Pipeline(service, inputPID, stagingImageID, s).state
              == JobState(None, "Service failed (exitCode = " + IntToString(s.service.exitCode) + ")")
  {
  }

  /**
   * The output volume is recorded as soon as it exists, before the service
   * runs, so a failed service still leaves it on the job.
   */
  lemma OutputVolumeRecordedBeforeService(service: Db.Service, inputPID: string, stagingImageID: string, s: Script)
    requires |service.input| > 0 && |service.output| > 0
    ensures var e := Pipeline(service, inputPID, stagingImageID, s);
            && (e.outputVolume.Some? <==> StepsRun(s) == 4)
            && (e.outputVolume.Some? ==> e.outputVolume.value == s.outputVolume.value)
  {
  }

  /**
   * The staging run mounts only the input volume, writable, at /volume and
   * gets the input PID; the service run mounts the input volume read-only
   * at its first input path and the output volume writable at its first
   * output path, with no arguments.
   */
  lemma RunsMountTheirVolumes(service: Db.Service, inputPID: string, stagingImageID: string, s: Script)
    requires |service.input| > 0 && |service.output| > 0
    ensures var e := Pipeline(service, inputPID, stagingImageID, s);
            && (|e.calls| >= 2 ==> e.calls[1] == ExecuteImage(stagingImageID, [inputPID],
                  [VolBind(s.inputVolume.value, "/volume", false)], true))
            && (|e.calls| == 4 ==> e.calls[3] == ExecuteImage(service.imageID, [],
                  [VolBind(s.inputVolume.value, service.input[0].path, true),
                   VolBind(s.outputVolume.value, service.output[0].path, false)], true))
  {
  }

  /** Staging exits 0 and the service exits 1: the job says so, with no error and its output volume. */
  lemma ServiceExitOneScenario(service: Db.Service, inputPID: string, stagingImageID: string)
    requires |service.input| > 0 && |service.output| > 0
    ensures var s := Script(Success("in"), ExecReply(0, None), Success("out"), ExecReply(1, None));
            var e := Pipeline(service, inputPID, stagingImageID, s);
            && e.state == JobState(None, "Service failed (exitCode = 1)")
            && e.outputVolume == Some("out")
            && |e.calls| == 4
  {
    assert IntToString(1) == "1";
  }

  /** The registry after runJob: the output volume (if made) and then the final state, on an existing entry. */
  function Recorded(cache: map<string, Job>, id: string, e: PipelineEnd): map<string, Job>
  {
    if id !in cache then cache
    else
      var j := if e.outputVolume.Some? then cache[id].SetOutputVolume(e.outputVolume.value) else cache[id];
      cache[id := j.SetState(e.state)]
  }

  /** The staging image: that of the last listed service named "Volume Stage In", or "". */
  function StagingImage(services: seq<Db.Service>): string
  {
    if services == [] then ""
    else if services[|services| - 1].name == StagingVolumeName then services[|services| - 1].imageID
    else StagingImage(services[..|services| - 1])
  }

  /** A later service named "Volume Stage In" overrides an earlier one. */
  lemma {:induction false} StagingImageIsLastMatch(services: seq<Db.Service>, k: nat)
    requires k < |services| && services[k].name == StagingVolumeName
    requires forall j :: k < j < |services| ==> services[j].name != StagingVolumeName
    ensures StagingImage(services) == services[k].imageID
  {
    if k < |services| - 1 {
      var init := services[..|services| - 1];
      assert forall j :: k < j < |init| ==> init[j] == services[j];
      StagingImageIsLastMatch(init, k);
    }
  }

  /** Without a staging service the staging image stays "". */
  lemma {:induction false} NoStagingService(services: seq<Db.Service>)
    requires forall j :: 0 <= j < |services| ==> services[j].name != StagingVolumeName
    ensures StagingImage(services) == ""
  {
    if services != [] {
      NoStagingService(services[..|services| - 1]);
    }
  }

  /** The first service with an ID, or None. */
  function Find(services: seq<Db.Service>, id: string): (r: Option<Db.Service>)
    ensures r.Some? ==> r.value in services && r.value.id == id
    ensures r.None? <==> forall j :: 0 <= j < |services| ==> services[j].id != id
  {
    if services == [] then None
    else if services[0].id == id then Some(services[0])
    else Find(services[1..], id)
  }

  /** ServiceList: the registered services, in the order they were added. */
  class ServiceList {
    var entries: seq<Db.Service>

    constructor ()
      ensures entries == []
    {
      entries := [];
    }

    method Add(s: Db.Service)
      modifies this
      ensures entries == old(entries) + [s]
    {
      entries := entries + [s];
    }
  }

  /** Pier: the registries and the staging image. */
  class Pier {
    var services: ServiceList
    var jobs: JobList
    var stagingImageID: string

    ghost predicate Valid()
      reads this, jobs
    {
      jobs.Valid()
    }

    constructor ()
      ensures fresh(services) && fresh(jobs)
      ensures services.entries == [] && jobs.cache == map[] && stagingImageID == ""
      ensures Valid()
    {
      services := new ServiceList();
      jobs := new JobList();
      stagingImageID := "";
    }

    /** The staging loop of NewPier: the last service named "Volume Stage In" wins. */
    method SelectStagingImage()
      modifies this`stagingImageID
      ensures stagingImageID == StagingImage(services.entries)
    {
      var all := services.entries;
      stagingImageID := "";
      for i := 0 to |all|
        invariant services.entries == all
        invariant stagingImageID == StagingImage(all[..i])
      {
        assert all[..i + 1][..i] == all[..i];
        if all[i].name == StagingVolumeName {
          stagingImageID := all[i].imageID;
        }
      }
      assert all[..|all|] == all;
    }

    /**
     * BuildService: the service made from the built image is registered
     * and returned; a failed build registers nothing.
     */
    method BuildService(built: Result<Db.Service, string>) returns (r: Result<Db.Service, PierError>)
      modifies services
      ensures built.Failure? ==> r == Failure(PierError("docker BuildImage failed", Some(built.error)))
      ensures built.Failure? ==> services.entries == old(services.entries)
      ensures built.Success? ==> r == Success(built.value) && services.entries == old(services.entries) + [built.value]
    {
      if built.Failure? {
        return Failure(PierError("docker BuildImage failed", Some(built.error)));
      }
      services.Add(built.value);
      return Success(built.value);
    }

    /** GetService: the registered service with that ID, or "not found". */
    function GetService(id: string): (r: Result<Db.Service, PierError>)
      reads this, services
      ensures r.Failure? <==> forall j :: 0 <= j < |services.entries| ==> services.entries[j].id != id
      ensures r.Failure? ==> r.error == PierError("not found", None)
      ensures r.Success? ==> r.value in services.entries && r.value.id == id
    {
      match Find(services.entries, id)
      case None => Failure(PierError("not found", None))
      case Some(s) => Success(s)
    }

    /** GetJob: the job with that ID, or "not found". */
    function GetJob(id: string): (r: Result<Job, PierError>)
      reads this, jobs
      ensures r.Failure? <==> id !in jobs.cache
      ensures r.Failure? ==> r.error == PierError("not found", None)
      ensures r.Success? ==> r.value == jobs.cache[id]
    {
      match jobs.Get(id)
      case None => Failure(PierError("not found", None))
      case Some(j) => Success(j)
    }

    /** ListJobs: the registry's listing. */
    method ListJobs() returns (all: seq<Job>)
      requires Valid()
      ensures |all| == |jobs.cache|
      ensures multiset(all) == multiset(jobs.cache.Values)
      ensures StrictlyAscending(all)
    {
      all := jobs.List();
    }

    /**
     * RunService: register a new job for the service, created now with
     * state "Created" and no error, and return it; the engine work is
     * RunJob, started after the job is registered.
     */
    method RunService(service: Db.Service, inputPID: string, id: string, created: int) returns (job: Job)
      requires Valid()
      modifies jobs
      ensures Valid()
      ensures job == Job(id, service.id, inputPID, created, JobState(None, "Created"), "")
      ensures jobs.cache == old(jobs.cache)[id := job]
    {
      job := Job(id, service.id, inputPID, created, JobState(None, "Created"), "");
      jobs.Add(job);
    }

    /**
     * runJob: the steps in order, recording the output volume on the job
     * and in the registry as soon as it exists, and the final state in
     * the registry.
     */
    method RunJob(job: Job, service: Db.Service, inputPID: string, s: Script) returns (updated: Job, calls: seq<EngineCall>)
      requires Valid() && |service.input| > 0 && |service.output| > 0
      modifies jobs
      ensures Valid()
      ensures var e := Pipeline(service, inputPID, stagingImageID, s);
              && calls == e.calls
              && updated == (if e.outputVolume.Some? then job.SetOutputVolume(e.outputVolume.value) else job)
              && jobs.cache == Recorded(old(jobs.cache), job.id, e)
    {
      updated := job;
      calls := [NewVolume];
      if s.inputVolume.Failure? {
        jobs.SetState(job.id, Failed("Error while creating new input volume", s.inputVolume.error));
        return;
      }
      var inVol := s.inputVolume.value;
      calls := calls + [ExecuteImage(stagingImageID, [inputPID], [VolBind(inVol, StagingMountPath, false)], true)];
      if s.staging.err.Some? {
        jobs.SetState(job.id, Failed("Data staging failed", s.staging.err.value));
        return;
      }
      if s.staging.exitCode != 0 {
        var msg := "Data staging failed (exitCode = " + IntToString(s.staging.exitCode) + ")";
        jobs.SetState(job.id, JobState(None, msg));
        return;
      }
      calls := calls + [NewVolume];
      if s.outputVolume.Failure? {
        jobs.SetState(job.id, Failed("Error while creating new output volume", s.outputVolume.error));
        return;
      }
      var outVol := s.outputVolume.value;
      updated := updated.SetOutputVolume(outVol);
      jobs.SetOutputVolume(job.id, outVol);
      var binds := [VolBind(inVol, service.input[0].path, true), VolBind(outVol, service.output[0].path, false)];
      calls := calls + [ExecuteImage(service.imageID, [], binds, true)];
      if s.service.err.Some? {
        jobs.SetState(job.id, Failed("Service failed", s.service.err.value));
        return;
      }
      if s.service.exitCode != 0 {
        var msg := "Service failed (exitCode = " + IntToString(s.service.exitCode) + ")";
        jobs.SetState(job.id, JobState(None, msg));
        return;
      }
      jobs.SetState(job.id, JobState(None, "Ended successfully"));
    }
  }

  /**
   * NewPier: fail when NewClientFirstOf makes no Docker client, with the
   * diagnostics it collected; otherwise register one service per listed
   * image (none when listing failed) and select the staging image.
   */
  method NewPier(cfgs: seq<Dckr.Config>, probes: seq<Dckr.Probe>, listed: Result<seq<Db.Service>, string>)
    returns (r: Result<Pier, PierError>)
    requires |cfgs| == |probes|
    ensures var client := Dckr.FirstOf(cfgs, probes);
            && (client.Failure? ==> r == Failure(PierError("Cannot create docker client", Some(client.error))))
            && (client.Success? ==> r.Success? && fresh(r.value) && r.value.Valid())
            && (client.Success? ==> r.value.jobs.cache == map[])
            && (client.Success? ==> r.value.services.entries == (if listed.Success? then listed.value else []))
            && (client.Success? ==> r.value.stagingImageID == StagingImage(r.value.services.entries))
  {
    var client := Dckr.NewClientFirstOf(cfgs, probes);
    if client.Failure? {
      return Failure(PierError("Cannot create docker client", Some(client.error)));
    }
    var p := PopulatedPier(listed);
    return Success(p);
  }

  /** The rest of NewPier once a client exists: the listed services, in order, and the staging image. */
  method PopulatedPier(listed: Result<seq<Db.Service>, string>) returns (p: Pier)
    ensures fresh(p) && p.Valid() && p.jobs.cache == map[]
    ensures p.services.entries == (if listed.Success? then listed.value else [])
    ensures p.stagingImageID == StagingImage(p.services.entries)
  {
    p := new Pier();
    if listed.Success? {
      var images := listed.value;
      for i := 0 to |images|
        invariant p.services.entries == images[..i]
        invariant fresh(p.services) && fresh(p.jobs)
        invariant p.jobs.cache == map[] && p.Valid()
      {
        assert images[..i + 1] == images[..i] + [images[i]];
        p.services.Add(images[i]);
      }
      assert images[..|images|] == images;
    }
    p.SelectStagingImage();
  }
}
