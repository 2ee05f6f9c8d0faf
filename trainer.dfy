/**
 * Trainer::LoadJobList: a job file of comma-separated lines. A line whose
 * first field is a setting's name sets it for the jobs that follow; a
 * "dataset" line picks the image set through the loader; a "network" line is
 * followed by a network block and adds a job that trains the new network; a
 * "network file" line adds a job that trains a saved network. Any error stops
 * the load with a message that names the line and the file.
 *
 * The file is the sequence of lines std::getline returns before the stream
 * reaches its end; std::stoi and std::stod are parameters.
 */
module JobFiles {
  import opened Wrappers
  import opened Files
  import NumberText
  import StringUtils
  import ImageSets
  import Networks
  import Loader
  import NetworkBlocks

  // ---------------------------------------------------------------------------
  // Messages.

  predicate IsSeparator(c: char) { c == '/' || c == '\\' }

  /** StripDir: what follows the last path separator, or the whole path when it has none. */
  function StripDir(path: string): (r: string)
    ensures |r| <= |path| && r == path[|path| - |r|..]
    ensures forall k | 0 <= k < |r| :: !IsSeparator(r[k])
    ensures |r| < |path| ==> IsSeparator(path[|path| - |r| - 1])
  {
    if path == [] then []
    else if IsSeparator(path[|path| - 1]) then []
    else StripDir(path[..|path| - 1]) + [path[|path| - 1]]
  }

  /** The message of an error met at a line of a job file. */
  function JobError(lineNo: int, fileName: string, message: string): string
  {
    "Error at line " + NumberText.IntToString(lineNo) + " of job file " + StripDir(fileName) + ": " + message
  }

  function UnableToRead(fileName: string): string { "Unable to read file " + fileName }

  /** The fixed messages of the job-file lines. */
  datatype Complaint =
    | DataSetMissing | EpochsMissing | EpochsRange | GiveUpMissing | LearningRateMissing | LearningRateRange
    | DecayMissing | DecayRange | DecayPointMissing | DecayPointRange | MiniBatchMissing | MiniBatchRange
    | WeightDecayMissing | WeightDecayRange | NetworkFileMissing
    | NoDataSet | MiniBatchUnset | LearningRateUnset | EpochsUnset
    | InvalidParameter(key: string)
  {
    function Message(): string
    {
      match this
      case DataSetMissing => "Dataset name is missing."
      case EpochsMissing => "Number of epochs is missing."
      case EpochsRange => "Number of epochs must be at least 1."
      case GiveUpMissing => "You must specify how many epochs without progress to give up after."
      case LearningRateMissing => "Learning rate is missing."
      case LearningRateRange => "Learning rate must be greater than 0."
      case DecayMissing => "Learning rate decay is missing."
      case DecayRange => "Learning rate decay must be greater than or equal to 0 and less than 1."
      case DecayPointMissing => "Learning rate decay point is missing."
      case DecayPointRange => "Learning rate decay point must be greater than or equal to 0."
      case MiniBatchMissing => "Minibatch size is missing."
      case MiniBatchRange => "Minibatch size must be at least 1."
      case WeightDecayMissing => "Weight decay is missing."
      // The check accepts (0, 1]; the message describes [0, 1).
      case WeightDecayRange => "Weight decay must be greater than or equal to 0 and less than 1."
      case NetworkFileMissing => "Network file name is missing."
      case NoDataSet => "No dataset has been specified."
      case MiniBatchUnset => "Minibatch size has not been specified."
      case LearningRateUnset => "Learning rate has not been specified."
      case EpochsUnset => "Epochs has not been specified."
      case InvalidParameter(key) => "Invalid parameter: " + key
    }
  }

  // ---------------------------------------------------------------------------
  // Settings.

  /** The settings a job takes when it is added. */
  datatype Settings = Settings(epochs: nat, giveUpAfter: nat, miniBatchSize: nat, learningRate: real,
                               decay: real, decayPoint: real, weightDecay: real)

  /** The settings before the first line: nothing set, never give up. */
  function Initial(): Settings
  {
    Settings(0, 0xFFFF_FFFF, 0, 0.0, 0.0, 0.0, 0.0)
  }

  /** What every accepted setting line leaves true. */
  predicate InRange(s: Settings)
  {
    s.giveUpAfter < 0x1_0000_0000 && 0.0 <= s.learningRate && 0.0 <= s.decay < 1.0 && 0.0 <= s.decayPoint &&
    0.0 <= s.weightDecay <= 1.0
  }

  predicate IsSettingKey(key: string)
  {
    key == "epochs" || key == "give up after" || key == "learning rate" || key == "learning rate decay" ||
    key == "learning rate decay point" || key == "minibatch size" || key == "minibatch" || key == "weight decay"
  }

  /** A line's value: a second field that is not empty. */
  predicate HasValue(fields: seq<string>) { |fields| >= 2 && fields[1] != "" }

  function MissingValue(key: string): Complaint
  {
    if key == "epochs" then EpochsMissing
    else if key == "give up after" then GiveUpMissing
    else if key == "learning rate" then LearningRateMissing
    else if key == "learning rate decay" then DecayMissing
    else if key == "learning rate decay point" then DecayPointMissing
    else if key == "minibatch size" || key == "minibatch" then MiniBatchMissing
    else WeightDecayMissing
  }

  /** The setting's new state differs from the old one at most in the field the key names. */
  predicate OnlyChanges(s: Settings, t: Settings, key: string)
  {
    if key == "epochs" then t == s.(epochs := t.epochs)
    else if key == "give up after" then t == s.(giveUpAfter := t.giveUpAfter)
    else if key == "learning rate" then t == s.(learningRate := t.learningRate)
    else if key == "learning rate decay" then t == s.(decay := t.decay)
    else if key == "learning rate decay point" then t == s.(decayPoint := t.decayPoint)
    else if key == "minibatch size" || key == "minibatch" then t == s.(miniBatchSize := t.miniBatchSize)
    else t == s.(weightDecay := t.weightDecay)
  }

  /** The field the key names holds the value read from the text, as std::stoi or std::stod reads it. */
  predicate ReadFrom(key: string, value: string, t: Settings, stoi: string -> Result<int>, stod: string -> Result<real>)
  {
    if key == "epochs" then stoi(value) == Ok(t.epochs)
    else if key == "give up after" then stoi(value).Ok? && t.giveUpAfter == NumberText.Unsigned32(stoi(value).value)
    else if key == "learning rate" then stod(value) == Ok(t.learningRate)
    else if key == "learning rate decay" then stod(value) == Ok(t.decay)
    else if key == "learning rate decay point" then stod(value) == Ok(t.decayPoint)
    else if key == "minibatch size" || key == "minibatch" then stoi(value) == Ok(t.miniBatchSize)
    else stod(value) == Ok(t.weightDecay)
  }

  /** The range the line's check accepts for the field the key names. */
  predicate Accepted(key: string, t: Settings)
  {
    if key == "epochs" then t.epochs >= 1
    else if key == "give up after" then true
    else if key == "learning rate" then t.learningRate > 0.0
    else if key == "learning rate decay" then 0.0 <= t.decay < 1.0
    else if key == "learning rate decay point" then t.decayPoint >= 0.0
    else if key == "minibatch size" || key == "minibatch" then t.miniBatchSize >= 1
    else 0.0 < t.weightDecay <= 1.0
  }

  /** The value of the value field, or the complaint that it is missing. */
  function ValueOf(fields: seq<string>, missing: Complaint): (r: Result<string>)
    ensures r.Ok? <==> HasValue(fields)
    ensures r.Ok? ==> r.value == fields[1]
    ensures r.Err? ==> r.error == missing.Message()
  {
    if HasValue(fields) then Ok(fields[1]) else Err(missing.Message())
  }

  /** The corrected count check: a count read as an int must be at least 1. */
  function Count(n: int, tooSmall: Complaint): (r: Result<nat>)
    ensures r.Ok? <==> n >= 1
    ensures r.Ok? ==> r.value == n
  {
    if n < 1 then Err(tooSmall.Message()) else Ok(n)
  }

  /**
   * The count check as written: the int is stored in a uint32 before it is
   * compared with 1.
   */
  function CountAsWritten(n: int, tooSmall: Complaint): (r: Result<nat>)
    ensures r.Ok? <==> NumberText.Unsigned32(n) >= 1
  {
    var u := NumberText.Unsigned32(n);
    if u < 1 then Err(tooSmall.Message()) else Ok(u)
  }

  /** As written, a negative count passes the check as a huge one. */
  lemma NegativeCountPasses(n: int, tooSmall: Complaint)
    requires -0x8000_0000 <= n < 0
    ensures CountAsWritten(n, tooSmall) == Ok(n + 0x1_0000_0000)
    ensures Count(n, tooSmall).Err?
  {
  }

  /** The two checks agree on every count a uint32 holds. */
  lemma CountChecksAgree(n: int, tooSmall: Complaint)
    requires 0 <= n < 0x1_0000_0000
    ensures CountAsWritten(n, tooSmall) == Count(n, tooSmall)
  {
  }

  /**
   * A setting line: the settings after it, or the message it throws. The
   * count settings use the corrected check.
   */
  function Setting(s: Settings, key: string, fields: seq<string>, stoi: string -> Result<int>,
                   stod: string -> Result<real>): (r: Result<Settings>)
    ensures !IsSettingKey(key) ==> r == Err(InvalidParameter(key).Message())
    ensures IsSettingKey(key) && !HasValue(fields) ==> r == Err(MissingValue(key).Message())
    ensures r.Ok? ==> IsSettingKey(key) && HasValue(fields) && OnlyChanges(s, r.value, key) &&
                      ReadFrom(key, fields[1], r.value, stoi, stod) && Accepted(key, r.value)
    ensures r.Ok? && InRange(s) ==> InRange(r.value)
  {
    if key == "epochs" then
      var v :- ValueOf(fields, EpochsMissing);
      var n :- stoi(v);
      var e :- Count(n, EpochsRange);
      Ok(s.(epochs := e))
    else if key == "give up after" then
      var v :- ValueOf(fields, GiveUpMissing);
      var n :- stoi(v);
      Ok(s.(giveUpAfter := NumberText.Unsigned32(n)))
    else if key == "learning rate" then
      var v :- ValueOf(fields, LearningRateMissing);
      var x :- stod(v);
      if x <= 0.0 then Err(LearningRateRange.Message()) else Ok(s.(learningRate := x))
    else if key == "learning rate decay" then
      var v :- ValueOf(fields, DecayMissing);
      var x :- stod(v);
      if x >= 1.0 || x < 0.0 then Err(DecayRange.Message()) else Ok(s.(decay := x))
    else if key == "learning rate decay point" then
      var v :- ValueOf(fields, DecayPointMissing);
      var x :- stod(v);
      if x < 0.0 then Err(DecayPointRange.Message()) else Ok(s.(decayPoint := x))
    else if key == "minibatch size" || key == "minibatch" then
      var v :- ValueOf(fields, MiniBatchMissing);
      var n :- stoi(v);
      var b :- Count(n, MiniBatchRange);
      Ok(s.(miniBatchSize := b))
    else if key == "weight decay" then
      var v :- ValueOf(fields, WeightDecayMissing);
      var x :- stod(v);
      if x > 1.0 || x <= 0.0 then Err(WeightDecayRange.Message()) else Ok(s.(weightDecay := x))
    else
      Err(InvalidParameter(key).Message())
  }

  /** Conversely, a line whose value reads as an accepted one sets exactly that value. */
  lemma SettingAcceptsEveryValidValue(s: Settings, key: string, fields: seq<string>, t: Settings,
                                      stoi: string -> Result<int>, stod: string -> Result<real>)
    requires IsSettingKey(key) && HasValue(fields)
    requires OnlyChanges(s, t, key) && ReadFrom(key, fields[1], t, stoi, stod) && Accepted(key, t)
    ensures Setting(s, key, fields, stoi, stod) == Ok(t)
  {
  }

  lemma InitialInRange()
    ensures InRange(Initial())
  {
  }

  /** The checks of a "network" line, in the order it makes them. */
  function NetworkReady(hasDataSet: bool, s: Settings): (r: Option<Complaint>)
    ensures r.None? <==> hasDataSet && s.miniBatchSize != 0 && s.learningRate != 0.0 && s.epochs != 0
    ensures !hasDataSet ==> r == Some(NoDataSet)
  {
    if !hasDataSet then Some(NoDataSet)
    else if s.miniBatchSize == 0 then Some(MiniBatchUnset)
    else if s.learningRate == 0.0 then Some(LearningRateUnset)
    else if s.epochs == 0 then Some(EpochsUnset)
    else None
  }

  /**
   * The checks of a "network file" line, in the order it makes them; the
   * network is read from its file between the minibatch and the epochs checks.
   */
  function SavedReady(fields: seq<string>, hasDataSet: bool, s: Settings): (r: Option<Complaint>)
    ensures r.None? <==> HasValue(fields) && hasDataSet && s.miniBatchSize != 0 && s.epochs != 0
    ensures !HasValue(fields) ==> r == Some(NetworkFileMissing)
  {
    if !HasValue(fields) then Some(NetworkFileMissing)
    else if !hasDataSet then Some(NoDataSet)
    else if s.miniBatchSize == 0 then Some(MiniBatchUnset)
    else if s.epochs == 0 then Some(EpochsUnset)
    else None
  }

  // ---------------------------------------------------------------------------
  // Jobs.

  /**
   * The network a job trains: one built from a network block, or one saved in
   * a file, with the learning rate and weight decay that override its own
   * when they are not 0.
   */
  datatype Source =
    | Described(network: Networks.FeedForwardNetwork)
    | Saved(file: string, learningRate: real, weightDecay: real)

  datatype Job = Job(dataSet: ImageSets.ImageSet, source: Source, epochs: nat, giveUpAfter: nat,
                     miniBatchSize: nat, decay: real, decayPoint: real)

  function Objects(j: Job): set<object>
  {
    if j.source.Described? then {j.source.network} else {}
  }

  /** The job from settings that passed a "network" line's checks, for a network already built. */
  function JobFor(dataSet: ImageSets.ImageSet, source: Source, s: Settings): Job
  {
    Job(dataSet, source, s.epochs, s.giveUpAfter, s.miniBatchSize, s.decay, s.decayPoint)
  }

  /**
   * What LoadJobList promises of each job it adds: the settings a job needs
   * are set and in range, and a built network is valid, takes the data set's
   * images and ends in one sigmoid output per category.
   */
  ghost predicate Trainable(j: Job)
    reads Objects(j), if j.source.Described? then NetworkBlocks.TopObjects(j.source.network) else {}
  {
    j.epochs >= 1 && j.miniBatchSize >= 1 && j.giveUpAfter < 0x1_0000_0000 && 0.0 <= j.decay < 1.0 &&
    0.0 <= j.decayPoint &&
    match j.source
    case Described(net) =>
      net.Valid() && net.Input() == NetworkBlocks.InputOf(j.dataSet) && net.epochsTrained == 0 &&
      net.learningRate > 0.0 && 0.0 <= net.weightDecay <= 1.0 &&
      NetworkBlocks.Classifies(net, |j.dataSet.oneHotCategories|)
    case Saved(file, learningRate, weightDecay) =>
      file != "" && 0.0 <= learningRate && 0.0 <= weightDecay <= 1.0
  }

  /** Trainable jobs appended to trainable jobs: all of them are trainable. */
  lemma AppendedJobsTrainable(before: seq<Job>, added: seq<Job>)
    requires forall k | 0 <= k < |before| :: Trainable(before[k])
    requires forall k | 0 <= k < |added| :: Trainable(added[k])
    ensures forall k | 0 <= k < |before + added| :: Trainable((before + added)[k])
  {
    forall k | 0 <= k < |before + added|
      ensures Trainable((before + added)[k])
    {
      if k < |before| {
        assert (before + added)[k] == before[k];
      } else {
        assert (before + added)[k] == added[k - |before|];
      }
    }
  }

  /** Where the loop over the lines stands: the settings, the data set, and the lines read. */
  datatype Progress = Progress(settings: Settings, dataSet: Option<ImageSets.ImageSet>, pos: nat)

  class Trainer {
    const loader: Loader.ImageSetLoader
    const threadCount: nat
    var jobs: seq<Job>

    constructor(loader: Loader.ImageSetLoader, threadCount: nat)
      ensures this.loader == loader && this.threadCount == threadCount && jobs == []
    {
      this.loader := loader;
      this.threadCount := threadCount;
      jobs := [];
    }

    /**
     * LoadJobList for one file: the jobs it describes are appended, or the
     * first error is reported with its line.
     */
    method LoadJobList(fileName: string, disk: Disk, env: map<string, string>, stoi: string -> Result<int>,
                       stod: string -> Result<real>) returns (error: Option<string>)
      modifies this`jobs, loader`imageSets
      ensures fileName !in disk.text ==> error == Some(UnableToRead(fileName)) && jobs == old(jobs)
      ensures |old(jobs)| <= |jobs| && jobs[..|old(jobs)|] == old(jobs)
      ensures forall k | |old(jobs)| <= k < |jobs| :: Trainable(jobs[k])
      ensures error.Some? && fileName in disk.text ==>
        exists lineNo: int, message: string :: 1 <= lineNo && error.value == JobError(lineNo, fileName, message)
    {
      if fileName !in disk.text {
        return Some(UnableToRead(fileName));
      }
      var lines := disk.text[fileName];
      ghost var added: seq<Job> := [];
      var at := Progress(Initial(), None, 0);
      InitialInRange();
      var failure: Option<(int, string)> := None;
      while at.pos < |lines| && failure.None?
        invariant InRange(at.settings)
        invariant jobs == old(jobs) + added
        invariant forall k | 0 <= k < |added| :: Trainable(added[k])
        invariant failure.Some? ==> 1 <= failure.value.0
        decreases |lines| - at.pos, if failure.None? then 1 else 0
      {
        ghost var before := jobs;
        var next := NextLine(lines, at, disk, env, stoi, stod);
        if jobs != before {
          ghost var job := jobs[|before|];
          assert jobs == before + [job] && Trainable(job);
          AppendedJobsTrainable(added, [job]);
          added := added + [job];
        }
        if next.Failed? {
          failure := Some((next.line, next.message));
        } else {
          at := next.value;
        }
      }
      forall k | |old(jobs)| <= k < |jobs|
        ensures Trainable(jobs[k])
      {
        assert jobs[k] == added[k - |old(jobs)|];
      }
      error := None;
      if failure.Some? {
        error := Some(JobError(failure.value.0, fileName, failure.value.1));
      }
    }

    /**
     * The line after the first at.pos: an empty line, a comment or a line
     * whose first field is empty changes nothing; an unbalanced quotation mark
     * is an error; any other line is read by its first field.
     */
    method NextLine(lines: seq<string>, at: Progress, disk: Disk, env: map<string, string>,
                    stoi: string -> Result<int>, stod: string -> Result<real>) returns (r: NetworkBlocks.Parsed<Progress>)
      requires at.pos < |lines| && InRange(at.settings)
      modifies this`jobs, loader`imageSets
      ensures r.Done? ==> InRange(r.value.settings) && at.pos < r.value.pos
      ensures r.Failed? ==> 1 <= r.line
      ensures jobs == old(jobs) || (|jobs| == |old(jobs)| + 1 && jobs == old(jobs) + [jobs[|old(jobs)|]] &&
                                    Trainable(jobs[|old(jobs)|]))
    {
      var lineNo := at.pos + 1;
      var line := lines[at.pos];
      if line == "" || line[0] == '#' {
        return NetworkBlocks.Done(at.(pos := lineNo));
      }
      var fields, _ := StringUtils.SplitCSV(line);
      if fields.Err? {
        return NetworkBlocks.Failed(fields.error, lineNo);
      }
      if fields.value[0] == "" {
        return NetworkBlocks.Done(at.(pos := lineNo));
      }
      r := ReadLine(fields.value, lines, lineNo, at, disk, env, stoi, stod);
    }

    /**
     * One line whose first field is not empty, the lineNo-th: the progress
     * after it (after its network block, for a "network" line), or its error.
     * A line adds at most one job.
     */
    method ReadLine(fields: seq<string>, lines: seq<string>, lineNo: nat, at: Progress, disk: Disk,
                    env: map<string, string>, stoi: string -> Result<int>, stod: string -> Result<real>)
      returns (r: NetworkBlocks.Parsed<Progress>)
      requires |fields| > 0 && fields[0] != "" && 1 <= lineNo && InRange(at.settings)
      modifies this`jobs, loader`imageSets
      ensures r.Done? ==> InRange(r.value.settings) && lineNo <= r.value.pos
      ensures r.Failed? ==> 1 <= r.line
      ensures jobs == old(jobs) || (|jobs| == |old(jobs)| + 1 && jobs == old(jobs) + [jobs[|old(jobs)|]] &&
                                    Trainable(jobs[|old(jobs)|]))
    {
      var key := StringUtils.LowerAll(fields[0]);
      if key == "dataset" {
        r := SelectDataSet(fields, lineNo, at, disk, env, stoi, stod);
      } else if key == "network" {
        r := AddNetworkJob(fields, lines, lineNo, at, stoi, stod);
      } else if key == "network file" {
        r := AddSavedJob(fields, lineNo, at);
      } else {
        r := ApplySetting(key, fields, lineNo, at, stoi, stod);
      }
    }

    /** Any other line: a setting, or an invalid parameter. */
    method ApplySetting(key: string, fields: seq<string>, lineNo: nat, at: Progress, stoi: string -> Result<int>,
                        stod: string -> Result<real>) returns (r: NetworkBlocks.Parsed<Progress>)
      requires InRange(at.settings)
      ensures var changed := Setting(at.settings, key, fields, stoi, stod);
        (r.Failed? <==> changed.Err?) && (r.Failed? ==> r == NetworkBlocks.Failed(changed.error, lineNo)) &&
        (r.Done? ==> r.value == at.(settings := changed.value, pos := lineNo) && InRange(r.value.settings))
    {
      var changed := Setting(at.settings, key, fields, stoi, stod);
      if changed.Err? {
        return NetworkBlocks.Failed(changed.error, lineNo);
      }
      return NetworkBlocks.Done(at.(settings := changed.value, pos := lineNo));
    }

    /** A "dataset" line: the lower-cased name, loaded or found by the loader. */
    method SelectDataSet(fields: seq<string>, lineNo: nat, at: Progress, disk: Disk, env: map<string, string>,
                         stoi: string -> Result<int>, stod: string -> Result<real>) returns (r: NetworkBlocks.Parsed<Progress>)
      modifies loader`imageSets
      ensures !HasValue(fields) ==> r == NetworkBlocks.Failed(DataSetMissing.Message(), lineNo)
      ensures r.Failed? ==> r.line == lineNo
      ensures r.Done? ==> (HasValue(fields) && r.value.settings == at.settings && r.value.pos == lineNo &&
        r.value.dataSet.Some? && var name := StringUtils.LowerAll(fields[1]);
        (name in old(loader.imageSets) ==> r.value.dataSet.value == old(loader.imageSets)[name]) &&
        (name !in old(loader.imageSets) ==> fresh(r.value.dataSet.value) && loader.imageSets == old(loader.imageSets)[name := r.value.dataSet.value]))
    {
      if !HasValue(fields) {
        return NetworkBlocks.Failed(DataSetMissing.Message(), lineNo);
      }
      var imageSet := loader.Load(StringUtils.LowerAll(fields[1]), env, disk, stoi, stod);
      if imageSet.Err? {
        return NetworkBlocks.Failed(imageSet.error, lineNo);
      }
      return NetworkBlocks.Done(at.(dataSet := Some(imageSet.value), pos := lineNo));
    }

    /** A "network" line: its checks, then the network block after it, which becomes a job. */
    method AddNetworkJob(fields: seq<string>, lines: seq<string>, lineNo: nat, at: Progress,
                         stoi: string -> Result<int>, stod: string -> Result<real>)
      returns (r: NetworkBlocks.Parsed<Progress>)
      requires 1 <= lineNo && InRange(at.settings)
      modifies this`jobs
      ensures NetworkReady(at.dataSet.Some?, at.settings).Some? ==>
        r == NetworkBlocks.Failed(NetworkReady(at.dataSet.Some?, at.settings).value.Message(), lineNo)
      ensures NetworkReady(at.dataSet.Some?, at.settings).None? && r.Failed? ==> lineNo < r.line
      ensures r.Done? ==> r.value.settings == at.settings && r.value.dataSet == at.dataSet && lineNo < r.value.pos
      ensures r.Failed? ==> 1 <= r.line
      ensures r.Failed? ==> jobs == old(jobs)
      ensures r.Done? ==> (|jobs| == |old(jobs)| + 1 && jobs[..|old(jobs)|] == old(jobs) &&
        Trainable(jobs[|old(jobs)|]) && jobs[|old(jobs)|].source.Described? && fresh(jobs[|old(jobs)|].source.network) &&
        jobs[|old(jobs)|] == JobFor(at.dataSet.value, jobs[|old(jobs)|].source, at.settings))
    {
      var problem := NetworkReady(at.dataSet.Some?, at.settings);
      if problem.Some? {
        return NetworkBlocks.Failed(problem.value.Message(), lineNo);
      }
      var dataSet := at.dataSet.value;
      var s := at.settings;
      var name := if HasValue(fields) then fields[1] else dataSet.name;
      var built := BuildNetwork(name, lines, lineNo, dataSet, s, stoi, stod);
      if built.Failed? {
        return NetworkBlocks.Failed(built.message, built.line);
      }
      var job := JobFor(dataSet, Described(built.value.0), s);
      jobs := jobs + [job];
      r := NetworkBlocks.Done(at.(pos := built.value.1));
    }

    /**
     * The network block after the lineNo-th line, as a job needs it: a new
     * valid classifier for the data set with the settings' learning rate and
     * weight decay, and the line count after the block; or the block's error,
     * at a line after the "network" line.
     */
    method BuildNetwork(name: string, lines: seq<string>, lineNo: nat, dataSet: ImageSets.ImageSet, s: Settings,
                        stoi: string -> Result<int>, stod: string -> Result<real>)
      returns (r: NetworkBlocks.Parsed<(Networks.FeedForwardNetwork, nat)>)
      ensures r.Failed? ==> lineNo < r.line
      ensures r.Done? ==> var net := r.value.0;
        lineNo < r.value.1 && fresh(net) && net.Valid() && net.name == name && net.threadCount == threadCount &&
        net.Input() == NetworkBlocks.InputOf(dataSet) && net.epochsTrained == 0 && net.learningRate == s.learningRate &&
        net.weightDecay == s.weightDecay && NetworkBlocks.Classifies(net, |dataSet.oneHotCategories|)
    {
      r := NetworkBlocks.LoadNetwork(name, lines, lineNo, dataSet, threadCount, s.learningRate, s.weightDecay, stoi, stod);
      if r.Failed? {
        NetworkBlocks.NetworkBlockErrorsInFile(lines, lineNo, NetworkBlocks.InputOf(dataSet), |dataSet.oneHotCategories|,
                                               stoi, stod);
      } else {
        NetworkBlocks.NetworkBlockEndsInFile(lines, lineNo, NetworkBlocks.InputOf(dataSet), |dataSet.oneHotCategories|,
                                             stoi, stod);
      }
    }

    /** A "network file" line: its checks, then a job for the saved network. */
    method AddSavedJob(fields: seq<string>, lineNo: nat, at: Progress) returns (r: NetworkBlocks.Parsed<Progress>)
      requires InRange(at.settings)
      modifies this`jobs
      ensures r.Failed? <==> SavedReady(fields, at.dataSet.Some?, at.settings).Some?
      ensures r.Failed? ==> (r == NetworkBlocks.Failed(SavedReady(fields, at.dataSet.Some?, at.settings).value.Message(),
                                                       lineNo) && jobs == old(jobs))
      ensures r.Done? ==> (r.value == at.(pos := lineNo) &&
        jobs == old(jobs) + [JobFor(at.dataSet.value, Saved(fields[1], at.settings.learningRate, at.settings.weightDecay),
                                    at.settings)])
      ensures r.Done? ==> Trainable(jobs[|jobs| - 1])
    {
      var problem := SavedReady(fields, at.dataSet.Some?, at.settings);
      if problem.Some? {
        return NetworkBlocks.Failed(problem.value.Message(), lineNo);
      }
      var s := at.settings;
      jobs := jobs + [JobFor(at.dataSet.value, Saved(fields[1], s.learningRate, s.weightDecay), s)];
      r := NetworkBlocks.Done(at.(pos := lineNo));
    }
  }
}
