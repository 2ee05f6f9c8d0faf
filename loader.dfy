/**
 * ImageSetLoader: reads the data directory from the environment, and loads
 * each image set by name once, keeping the sets it has loaded.
 */
module Loader {
  import opened Wrappers
  import opened Files
  import opened ImageSets
  import StringUtils
  import Cifar
  import Mnist
  import Faces

  const DataDirVariable := "FISHNET_DATA_DIR"

  /** A directory ending in the path separator: the separator is appended unless it is already last. */
  function WithSeparator(dir: string, windows: bool): (r: string)
    ensures |r| > 0 && r[|r| - 1] == StringUtils.PathSeparator(windows)
    ensures r == dir || r == dir + [StringUtils.PathSeparator(windows)]
  {
    if |dir| > 0 && dir[|dir| - 1] == StringUtils.PathSeparator(windows) then dir else dir + [StringUtils.PathSeparator(windows)]
  }

  /** Appending the separator to a directory that already ends with it changes nothing. */
  lemma WithSeparatorIdempotent(dir: string, windows: bool)
    ensures WithSeparator(WithSeparator(dir, windows), windows) == WithSeparator(dir, windows)
  {
  }

  /** The loaders Load dispatches to. */
  datatype Kind = CifarSet | MnistSet | FaceSet

  function Dispatch(name: string): Option<Kind>
  {
    if name == "cifar-10" then Some(CifarSet)
    else if name == "mnist" then Some(MnistSet)
    else if name == "emotions" || name == "face-directions" || name == "people" || name == "sunglasses"
      || name == "directions-sunglasses" then Some(FaceSet)
    else None
  }

  const SupportedSets: seq<string> :=
    ["cifar-10", "mnist", "emotions", "face-directions", "people", "sunglasses", "directions-sunglasses"]

  function UnknownSet(name: string): string
  {
    "Unknown image set " + name + ". The supported image sets are cifar-10, mnist, "
    + "emotions, face-directions, people, sunglasses, and directions-sunglasses."
  }

  /** The names the message lists are exactly the names Load dispatches. */
  lemma SupportedSetsDispatched(name: string)
    ensures Dispatch(name).Some? <==> name in SupportedSets
  {
  }

  /**
   * Whether r succeeds or fails as the loader of the named set does: the
   * unknown-set error for a name no loader takes, else that loader's error.
   */
  predicate Outcome(name: string, dataDir: string, dry: bool, env: map<string, string>, disk: Disk,
                    stoi: string -> Result<int>, stod: string -> Result<real>, r: Result<ImageSet>)
  {
    match Dispatch(name)
    case None => r == Err(UnknownSet(name))
    case Some(CifarSet) =>
      (r.Err? <==> !dry && Cifar.Loaded(dataDir, disk).Err?) && (r.Err? ==> r.error == Cifar.Loaded(dataDir, disk).error)
    case Some(MnistSet) =>
      (r.Err? <==> !dry && Mnist.Loaded(dataDir, disk).Err?) && (r.Err? ==> r.error == Mnist.Loaded(dataDir, disk).error)
    case Some(FaceSet) =>
      (r.Err? <==> Faces.FacesLoaded(dataDir, name, dry, env, disk, stoi, stod).Err?)
      && (r.Err? ==> r.error == Faces.FacesLoaded(dataDir, name, dry, env, disk, stoi, stod).error)
  }

  /**
   * The set s is the one the CIFAR-10 or MNIST loader builds: its name,
   * categories and image size, and both lists, which a dry run leaves empty.
   */
  predicate HoldsOther(name: string, dataDir: string, dry: bool, disk: Disk, s: ImageSet)
    reads s
  {
    match Dispatch(name)
    case Some(CifarSet) =>
      s.name == "CIFAR-10" && s.channels == Cifar.Channels && s.width == Cifar.Side && s.height == Cifar.Side
      && (if dry then s.categories == seq(10, _ => "") && s.trainingSet == [] && s.testSet == []
          else Cifar.Loaded(dataDir, disk).Ok? && (s.categories, s.trainingSet, s.testSet) == Cifar.Loaded(dataDir, disk).value)
    case Some(MnistSet) =>
      s.name == "MNIST" && s.categories == Mnist.Categories() && s.channels == 1 && s.width == Mnist.Side && s.height == Mnist.Side
      && (if dry then s.trainingSet == [] && s.testSet == []
          else Mnist.Loaded(dataDir, disk).Ok? && (s.trainingSet, s.testSet) == Mnist.Loaded(dataDir, disk).value)
    case _ => false
  }

  /** The set s is the one the loader of the named set builds. */
  predicate Holds(name: string, dataDir: string, dry: bool, env: map<string, string>, disk: Disk,
                  stoi: string -> Result<int>, stod: string -> Result<real>, s: ImageSet)
    reads s
  {
    if Dispatch(name) == Some(FaceSet) then
      var f := Faces.FacesLoaded(dataDir, name, dry, env, disk, stoi, stod);
      f.Ok? && s.channels == 1 && s.name == f.value.name && s.categories == f.value.categories
      && s.width == f.value.width && s.height == f.value.height && s.trainingSet == f.value.training && s.testSet == f.value.test
    else HoldsOther(name, dataDir, dry, disk, s)
  }

  /** The dispatch on the set's name to its loader. */
  method LoadNew(name: string, dataDir: string, dry: bool, env: map<string, string>, disk: Disk,
                 stoi: string -> Result<int>, stod: string -> Result<real>) returns (r: Result<ImageSet>)
    ensures Outcome(name, dataDir, dry, env, disk, stoi, stod, r)
    ensures r.Ok? ==> fresh(r.value) && Holds(name, dataDir, dry, env, disk, stoi, stod, r.value)
  {
    if name == "emotions" || name == "face-directions" || name == "people" || name == "sunglasses"
      || name == "directions-sunglasses" {
      assert Dispatch(name) == Some(FaceSet);
      r := Faces.LoadFaces(dataDir, name, dry, env, disk, stoi, stod);
    } else {
      r := LoadOther(name, dataDir, dry, disk);
    }
  }

  /** The rest of the dispatch: CIFAR-10, MNIST, or an unknown name. */
  method LoadOther(name: string, dataDir: string, dry: bool, disk: Disk) returns (r: Result<ImageSet>)
    requires Dispatch(name) != Some(FaceSet)
    ensures Dispatch(name) == None ==> r == Err(UnknownSet(name))
    ensures Dispatch(name) == Some(CifarSet) ==>
      (r.Err? <==> !dry && Cifar.Loaded(dataDir, disk).Err?) && (r.Err? ==> r.error == Cifar.Loaded(dataDir, disk).error)
    ensures Dispatch(name) == Some(MnistSet) ==>
      (r.Err? <==> !dry && Mnist.Loaded(dataDir, disk).Err?) && (r.Err? ==> r.error == Mnist.Loaded(dataDir, disk).error)
    ensures r.Ok? ==> fresh(r.value) && HoldsOther(name, dataDir, dry, disk, r.value)
  {
    if name == "cifar-10" {
      r := Cifar.LoadCifar10(dataDir, dry, disk);
    } else if name == "mnist" {
      r := Mnist.LoadMnist(dataDir, dry, disk);
    } else {
      r := Err(UnknownSet(name));
    }
  }

  class ImageSetLoader {
    var imageSets: map<string, ImageSet>
    const dataDir: string
    const dry: bool

    constructor(dry: bool, dataDir: string)
      ensures this.dry == dry && this.dataDir == dataDir && imageSets == map[]
    {
      this.dry := dry;
      this.dataDir := dataDir;
      imageSets := map[];
    }

    /**
     * The constructor's work: unless dry, the data directory from the
     * environment, ending in the path separator.
     */
    static method Create(dry: bool, env: map<string, string>, windows: bool) returns (r: Result<ImageSetLoader>)
      ensures r.Err? <==> !dry && DataDirVariable !in env
      ensures r.Err? ==> r.error == GetEnv(env, DataDirVariable).error
      ensures r.Ok? ==> (fresh(r.value) && r.value.dry == dry && r.value.imageSets == map[]
        && r.value.dataDir == if dry then "" else WithSeparator(env[DataDirVariable], windows))
    {
      var dataDir := "";
      if !dry {
        dataDir :- GetEnv(env, DataDirVariable);
        if |dataDir| == 0 || dataDir[|dataDir| - 1] != StringUtils.PathSeparator(windows) {
          dataDir := dataDir + [StringUtils.PathSeparator(windows)];
        }
      }
      var loader := new ImageSetLoader(dry, dataDir);
      r := Ok(loader);
    }

    /**
     * The set of that name: the one loaded before, or a new one from its
     * loader, kept for later calls.
     */
    method Load(name: string, env: map<string, string>, disk: Disk, stoi: string -> Result<int>,
                stod: string -> Result<real>) returns (r: Result<ImageSet>)
      modifies this`imageSets
      ensures name in old(imageSets) ==> r == Ok(old(imageSets)[name]) && imageSets == old(imageSets)
      ensures name !in old(imageSets) ==> Outcome(name, dataDir, dry, env, disk, stoi, stod, r)
      ensures name !in old(imageSets) && r.Err? ==> imageSets == old(imageSets)
      ensures name !in old(imageSets) && r.Ok? ==>
        fresh(r.value) && imageSets == old(imageSets)[name := r.value] && Holds(name, dataDir, dry, env, disk, stoi, stod, r.value)
    {
      if name in imageSets {
        return Ok(imageSets[name]);
      }
      var imageSet :- LoadNew(name, dataDir, dry, env, disk, stoi, stod);
      imageSets := imageSets[name := imageSet];
      r := Ok(imageSet);
    }
  }
}
