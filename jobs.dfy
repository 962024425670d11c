/**
 * The job models of aiohasupervisor/models/jobs.py: the `JobCondition`
 * enum, the recursive `Job` tree, and the asymmetry between the lenient
 * `JobsInfo` response and the strict `JobsOptions` request.
 */
module Jobs {
  import opened Wrappers
  import opened EnumCodec

  /** `JobCondition`, declared incomplete: the service adds conditions over time. */
  datatype JobCondition =
      AutoUpdate
    | FreeSpace
    | Frozen
    | Haos
    | Healthy
    | HostNetwork
    | InternetHost
    | InternetSystem
    | MountAvailable
    | OsAgent
    | PluginsUpdated
    | Running
    | SupervisorUpdated

  function JobConditionValue(c: JobCondition): string
  {
    match c
    case AutoUpdate => "auto_update"
    case FreeSpace => "free_space"
    case Frozen => "frozen"
    case Haos => "haos"
    case Healthy => "healthy"
    case HostNetwork => "host_network"
    case InternetHost => "internet_host"
    case InternetSystem => "internet_system"
    case MountAvailable => "mount_available"
    case OsAgent => "os_agent"
    case PluginsUpdated => "plugins_updated"
    case Running => "running"
    case SupervisorUpdated => "supervisor_updated"
  }

  function ParseJobCondition(s: string): Option<JobCondition>
  {
    match s
    case "auto_update" => Some(AutoUpdate)
    case "free_space" => Some(FreeSpace)
    case "frozen" => Some(Frozen)
    case "haos" => Some(Haos)
    case "healthy" => Some(Healthy)
    case "host_network" => Some(HostNetwork)
    case "internet_host" => Some(InternetHost)
    case "internet_system" => Some(InternetSystem)
    case "mount_available" => Some(MountAvailable)
    case "os_agent" => Some(OsAgent)
    case "plugins_updated" => Some(PluginsUpdated)
    case "running" => Some(Running)
    case "supervisor_updated" => Some(SupervisorUpdated)
    case _ => None
  }
  /** The condition wire strings are pairwise distinct and each parses back to its member. */
  lemma JobConditionCodec()
    ensures IsCodec(JobConditionValue, ParseJobCondition)
  {
    JobConditionParsesBack();
    JobConditionValuesRecovered();
  }

  /** The `JobCondition` table, read from the wire side: each wire string and the member it denotes. */
  lemma JobConditionTable1()
    ensures ParseJobCondition("auto_update") == Some(AutoUpdate)
    ensures ParseJobCondition("free_space") == Some(FreeSpace)
    ensures ParseJobCondition("frozen") == Some(Frozen)
    ensures ParseJobCondition("haos") == Some(Haos)
    ensures ParseJobCondition("healthy") == Some(Healthy)
    ensures ParseJobCondition("host_network") == Some(HostNetwork)
  {
  }

  lemma JobConditionTable2()
    ensures ParseJobCondition("internet_host") == Some(InternetHost)
    ensures ParseJobCondition("internet_system") == Some(InternetSystem)
    ensures ParseJobCondition("mount_available") == Some(MountAvailable)
    ensures ParseJobCondition("os_agent") == Some(OsAgent)
    ensures ParseJobCondition("plugins_updated") == Some(PluginsUpdated)
    ensures ParseJobCondition("running") == Some(Running)
  {
  }

  lemma JobConditionTable3()
    ensures ParseJobCondition("supervisor_updated") == Some(SupervisorUpdated)
  {
  }

  /** The `JobCondition` table, read from the member side: each member and its wire string. */
  lemma JobConditionValues1()
    ensures JobConditionValue(AutoUpdate) == "auto_update"
    ensures JobConditionValue(FreeSpace) == "free_space"
    ensures JobConditionValue(Frozen) == "frozen"
    ensures JobConditionValue(Haos) == "haos"
    ensures JobConditionValue(Healthy) == "healthy"
    ensures JobConditionValue(HostNetwork) == "host_network"
    ensures JobConditionValue(InternetHost) == "internet_host"
    ensures JobConditionValue(InternetSystem) == "internet_system"
  {
  }

  lemma JobConditionValues2()
    ensures JobConditionValue(MountAvailable) == "mount_available"
    ensures JobConditionValue(OsAgent) == "os_agent"
    ensures JobConditionValue(PluginsUpdated) == "plugins_updated"
    ensures JobConditionValue(Running) == "running"
    ensures JobConditionValue(SupervisorUpdated) == "supervisor_updated"
  {
  }

  lemma JobConditionParsesBack()
    ensures forall e :: ParseJobCondition(JobConditionValue(e)) == Some(e)
  {
    JobConditionTable1();
    JobConditionTable2();
    JobConditionTable3();
    forall e: JobCondition
      ensures ParseJobCondition(JobConditionValue(e)) == Some(e)
    {
      match e
      case AutoUpdate => assert JobConditionValue(e) == "auto_update";
      case FreeSpace => assert JobConditionValue(e) == "free_space";
      case Frozen => assert JobConditionValue(e) == "frozen";
      case Haos => assert JobConditionValue(e) == "haos";
      case Healthy => assert JobConditionValue(e) == "healthy";
      case HostNetwork => assert JobConditionValue(e) == "host_network";
      case InternetHost => assert JobConditionValue(e) == "internet_host";
      case InternetSystem => assert JobConditionValue(e) == "internet_system";
      case MountAvailable => assert JobConditionValue(e) == "mount_available";
      case OsAgent => assert JobConditionValue(e) == "os_agent";
      case PluginsUpdated => assert JobConditionValue(e) == "plugins_updated";
      case Running => assert JobConditionValue(e) == "running";
      case SupervisorUpdated => assert JobConditionValue(e) == "supervisor_updated";
    }
  }

  lemma JobConditionValuesRecovered()
    ensures forall s :: ParseJobCondition(s).Some? ==> JobConditionValue(ParseJobCondition(s).value) == s
  {
    JobConditionValues1();
    JobConditionValues2();
  }

  // --- records ---

  /** `JobError`: an error type name and its message. */
  datatype JobError = JobError(errorType: string, message: string)

  /**
   * `Job`. `name`, `reference`, `stage` and `done` may be null; the UUID and
   * the creation time are kept as their text and `progress` as a real number.
   * A job's sub-jobs are `childJobs`, in the order received.
   */
  datatype Job = Job(
    name: Option<string>, reference: Option<string>, uuid: string, progress: real, stage: Option<string>,
    done: Option<bool>, errors: seq<JobError>, created: string, childJobs: seq<Job>)

  /** `JobsInfo`: the conditions the service ignores, possibly ones this client does not know, and the jobs. */
  datatype JobsInfo = JobsInfo(ignoreConditions: seq<Decoded<JobCondition>>, jobs: seq<Job>)

  /** `JobsOptions`: a request may name only known conditions. */
  datatype JobsOptions = JobsOptions(ignoreConditions: seq<JobCondition>)

  predicate IsLeaf(j: Job)
  {
    j.childJobs == []
  }

  // --- the job tree ---

  /** The job reached from `j` by following child indices, if every index is in range. */
  function Descendant(j: Job, path: seq<nat>): Option<Job>
    decreases |path|
  {
    if path == [] then Some(j)
    else if path[0] < |j.childJobs| then Descendant(j.childJobs[path[0]], path[1..])
    else None
  }

  /** Following `p` and then `q` is following `p + q`. */
  lemma {:induction false} DescendantCompose(j: Job, p: seq<nat>, q: seq<nat>)
    ensures Descendant(j, p + q) == (if Descendant(j, p).Some? then Descendant(Descendant(j, p).value, q) else None)
    decreases |p|
  {
    if p == [] {
      assert p + q == q;
    } else {
      assert (p + q)[0] == p[0];
      assert (p + q)[1..] == p[1..] + q;
      if p[0] < |j.childJobs| {
        DescendantCompose(j.childJobs[p[0]], p[1..], q);
      }
    }
  }

  /** Every job of the tree, pre-order: a job, then its children's trees in order. */
  function Flatten(j: Job): (r: seq<Job>)
    ensures |r| >= 1 && r[0] == j
    decreases j, 1
  {
    [j] + FlattenAll(j.childJobs)
  }

  function FlattenAll(js: seq<Job>): seq<Job>
    decreases js, 0
  {
    if js == [] then [] else Flatten(js[0]) + FlattenAll(js[1..])
  }

  /** The tree of the `i`-th child lies in the flattened children. */
  lemma {:induction false} ChildTreeListed(js: seq<Job>, i: nat, x: Job)
    requires i < |js| && x in Flatten(js[i])
    ensures x in FlattenAll(js)
    decreases i
  {
    if i > 0 {
      assert js[i] == js[1..][i - 1];
      ChildTreeListed(js[1..], i - 1, x);
    }
  }

  /** Every job reachable by a path is one of the tree's flattened jobs; nothing nested is lost. */
  lemma {:induction false} DescendantListed(j: Job, path: seq<nat>)
    requires Descendant(j, path).Some?
    ensures Descendant(j, path).value in Flatten(j)
    decreases |path|
  {
    if path != [] {
      var c := j.childJobs[path[0]];
      DescendantListed(c, path[1..]);
      ChildTreeListed(j.childJobs, path[0], Descendant(j, path).value);
    }
  }

  /** A job nested under a descendant `k` of `j` is listed both in `k`'s tree and in the whole tree. */
  lemma NestedDescendantListed(j: Job, p: seq<nat>, q: seq<nat>)
    requires Descendant(j, p).Some? && Descendant(Descendant(j, p).value, q).Some?
    ensures Descendant(Descendant(j, p).value, q).value in Flatten(Descendant(j, p).value)
    ensures Descendant(j, p + q) == Descendant(Descendant(j, p).value, q)
    ensures Descendant(Descendant(j, p).value, q).value in Flatten(j)
  {
    DescendantCompose(j, p, q);
    DescendantListed(Descendant(j, p).value, q);
    DescendantListed(j, p + q);
  }

  /** A job of the jobs fixture: a partial backup whose one child stores folders, whose one child saves `ssl`. */
  function FixtureJob(): Job
  {
    var save := Job(Some("backup_folder_save"), Some("ssl"), "", 0.0, None, Some(true), [], "", []);
    var store := Job(Some("backup_store_folders"), None, "", 0.0, None, Some(true), [], "", [save]);
    Job(Some("backup_manager_partial_backup"), Some("89cafa67"), "", 0.0, Some("finishing_file"), Some(true), [], "", [store])
  }

  /** Nesting in the fixture is kept: the grandchild is reached by path [0, 0], is a leaf, and comes third in pre-order. */
  lemma FixtureNesting()
    ensures Descendant(FixtureJob(), [0]).value.name == Some("backup_store_folders")
    ensures Descendant(FixtureJob(), [0, 0]).value.name == Some("backup_folder_save")
    ensures Descendant(FixtureJob(), [0, 0]).value.reference == Some("ssl")
    ensures IsLeaf(Descendant(FixtureJob(), [0, 0]).value)
    ensures Descendant(FixtureJob(), [1]).None?
    ensures |Flatten(FixtureJob())| == 3 && Flatten(FixtureJob())[2] == Descendant(FixtureJob(), [0, 0]).value
  {
    var store := FixtureJob().childJobs[0];
    var save := store.childJobs[0];
    assert Flatten(save) == [save];
    assert FlattenAll(store.childJobs) == [save];
    assert Flatten(store) == [store, save];
    assert FlattenAll(FixtureJob().childJobs) == [store, save];
  }

  // --- decoding ---

  /** Decoding a `JobsInfo` response never rejects a condition: unknown ones are kept as strings. */
  function DecodeJobsInfo(ignoreConditions: seq<string>, jobs: seq<Job>): (i: JobsInfo)
    ensures i.jobs == jobs
  {
    JobsInfo(DecodeList(ParseJobCondition, ignoreConditions), jobs)
  }

  /** The wire form of a `JobsOptions` request: its conditions' values, in order. */
  function EncodeJobsOptions(o: JobsOptions): seq<string>
  {
    WireList(JobConditionValue, o.ignoreConditions)
  }

  /** Reading a `JobsOptions` is strict: an unknown condition is an error. */
  function DecodeJobsOptions(ss: seq<string>): Result<JobsOptions, string>
  {
    match DecodeListStrict(ParseJobCondition, ss)
    case Ok(cs) => Ok(JobsOptions(cs))
    case Err(s) => Err(s)
  }

  /**
   * The asymmetry: a response keeps every received condition string, in
   * order, while the same strings make a valid request exactly when all of
   * them are known conditions.
   */
  lemma LenientResponseStrictRequest(ss: seq<string>, jobs: seq<Job>)
    ensures EncodeList(JobConditionValue, DecodeJobsInfo(ss, jobs).ignoreConditions) == ss
    ensures |DecodeJobsInfo(ss, jobs).ignoreConditions| == |ss|
    ensures DecodeJobsOptions(ss).Ok? <==> forall k :: 0 <= k < |ss| ==> ParseJobCondition(ss[k]).Some?
    ensures DecodeJobsOptions(ss).Err? ==> ParseJobCondition(DecodeJobsOptions(ss).error).None?
  {
    JobConditionCodec();
    EncodeDecodeList(JobConditionValue, ParseJobCondition, ss);
    DecodeListPointwise(ParseJobCondition, ss);
    DecodeListStrictSpec(ParseJobCondition, ss);
  }

  /** A request goes out and reads back unchanged. */
  lemma OptionsRoundTrip(o: JobsOptions)
    ensures DecodeJobsOptions(EncodeJobsOptions(o)) == Ok(o)
  {
    JobConditionCodec();
    StrictRoundTrip(JobConditionValue, ParseJobCondition, o.ignoreConditions);
  }

  /** The conditions of the jobs fixture and request: `free_space` is `FREE_SPACE`; an unknown name is kept on read and refused on request. */
  lemma ConditionExamples()
    ensures DecodeList(ParseJobCondition, ["free_space"]) == [Known(FreeSpace)]
    ensures DecodeList(ParseJobCondition, ["future_condition"]) == [Unknown("future_condition")]
    ensures EncodeJobsOptions(JobsOptions([FreeSpace])) == ["free_space"]
    ensures DecodeJobsOptions(["future_condition"]) == Err("future_condition")
  {
    DecodeListPointwise(ParseJobCondition, ["free_space"]);
    DecodeListPointwise(ParseJobCondition, ["future_condition"]);
    DecodeListStrictSpec(ParseJobCondition, ["future_condition"]);
  }
}
