/**
 * The CMU faces data sets: list files naming PGM images under faces/, each
 * image labelled by the category names its file name contains, under one of
 * five classifications (emotions, face directions, people, sunglasses, and
 * directions with sunglasses).
 */
module Faces {
  import opened Wrappers
  import opened Files
  import opened ImageSets
  import NumberText
  import Pgm

  datatype Classification = Emotions | Directions | People | Sunglasses | DirectionsSunglasses

  const DirectionNames: seq<string> := ["left", "right", "straight", "up"]
  const SunglassesWord := "sunglasses"

  /** p occurs in s starting at index k. */
  predicate OccursAt(s: string, p: string, k: nat)
  {
    k + |p| <= |s| && s[k..k + |p|] == p
  }

  /** std::string::find(p) != npos. */
  predicate Contains(s: string, p: string)
  {
    exists k: nat | k <= |s| :: OccursAt(s, p, k)
  }

  // ---------------------------------------------------------------------------
  // The label of a file name.

  /** The indices below n of the categories whose names occur in line, in increasing order. */
  function MatchesBelow(line: string, cats: seq<string>, n: nat): (ms: seq<nat>)
    requires n <= |cats|
    ensures forall j | 0 <= j < |ms| :: ms[j] < n
  {
    if n == 0 then [] else MatchesBelow(line, cats, n - 1) + (if Contains(line, cats[n - 1]) then [n - 1] else [])
  }

  /** Exactly the names below n that occur in line are matched. */
  lemma {:induction false} MatchesExactly(line: string, cats: seq<string>, n: nat)
    requires n <= |cats|
    ensures forall j | 0 <= j < |MatchesBelow(line, cats, n)| :: Contains(line, cats[MatchesBelow(line, cats, n)[j]])
    ensures forall i | 0 <= i < n && Contains(line, cats[i]) :: i in MatchesBelow(line, cats, n)
  {
    if n > 0 {
      MatchesExactly(line, cats, n - 1);
    }
  }

  /** The matches below n are the first matches below any m ≥ n. */
  lemma {:induction false} MatchesPrefix(line: string, cats: seq<string>, n: nat, m: nat)
    requires n <= m <= |cats|
    ensures MatchesBelow(line, cats, n) <= MatchesBelow(line, cats, m)
    decreases m - n
  {
    if n < m {
      MatchesPrefix(line, cats, n, m - 1);
    }
  }

  function Matches(line: string, cats: seq<string>): seq<nat>
  {
    MatchesBelow(line, cats, |cats|)
  }

  /** Where a line of a list file sits, for the messages. */
  datatype Where = Where(line: string, lineNo: nat, path: string)

  function Prefix(w: Where): string { "Image " + w.line + " at line " + NumberText.NatToString(w.lineNo) + " of " + w.path }
  function TwoCategories(w: Where, first: string, second: string): string
  {
    Prefix(w) + " belongs to 2 categories: " + first + " and " + second + "\n"
  }
  function NoCategory(w: Where): string { Prefix(w) + " does not match any category.\n" }

  /** The names searched for: the four directions for directions-sunglasses, else the set's categories. */
  function Searched(fc: Classification, categories: seq<string>): seq<string>
  {
    if fc == DirectionsSunglasses then DirectionNames else categories
  }

  /** The one category name the line contains, -1 when it contains none, or the error for a second one. */
  function Found(w: Where, cats: seq<string>): (r: Result<int>)
    ensures r.Ok? ==> -1 <= r.value < |cats|
    ensures r == Ok(-1) <==> forall i | 0 <= i < |cats| :: !Contains(w.line, cats[i])
  {
    MatchesExactly(w.line, cats, |cats|);
    var ms := Matches(w.line, cats);
    if |ms| >= 2 then Err(TwoCategories(w, cats[ms[0]], cats[ms[1]]))
    else if |ms| == 1 then Ok(ms[0])
    else Ok(-1 as int)
  }

  /**
   * The label of a line: for sunglasses, 1 when the name contains
   * "sunglasses", else 0; otherwise the one category it names, plus 4 for
   * directions-sunglasses when the name contains "sunglasses"; an error when
   * it names no category.
   */
  function Label(w: Where, fc: Classification, categories: seq<string>): (r: Result<nat>)
  {
    if fc == Sunglasses then Ok(if Contains(w.line, SunglassesWord) then 1 else 0)
    else
      var found :- Found(w, Searched(fc, categories));
      if found == -1 then Err(NoCategory(w))
      else if fc == DirectionsSunglasses && Contains(w.line, SunglassesWord) then Ok(found + 4)
      else Ok(found)
  }

  /** The search loop over the names, as LoadFaces runs it for each line. */
  method Search(w: Where, cats: seq<string>) returns (r: Result<int>)
    ensures r == Found(w, cats)
  {
    var found := -1;
    var i := 0;
    while i < |cats|
      invariant i <= |cats|
      invariant |MatchesBelow(w.line, cats, i)| == 0 ==> found == -1
      invariant |MatchesBelow(w.line, cats, i)| == 1 ==> found == MatchesBelow(w.line, cats, i)[0]
      invariant |MatchesBelow(w.line, cats, i)| <= 1
    {
      ghost var before := MatchesBelow(w.line, cats, i);
      if Contains(w.line, cats[i]) {
        assert MatchesBelow(w.line, cats, i + 1) == before + [i];
        if found != -1 {
          SecondMatch(w, cats, found, i);
          return Err(TwoCategories(w, cats[found], cats[i]));
        }
        found := i;
      } else {
        assert MatchesBelow(w.line, cats, i + 1) == before;
      }
      i := i + 1;
    }
    return Ok(found);
  }

  /** Once a second name is found, the search fails naming the two. */
  lemma SecondMatch(w: Where, cats: seq<string>, first: nat, second: nat)
    requires first < second < |cats|
    requires MatchesBelow(w.line, cats, second + 1) == [first, second]
    ensures Found(w, cats) == Err(TwoCategories(w, cats[first], cats[second]))
  {
    MatchesPrefix(w.line, cats, second + 1, |cats|);
    var ms := Matches(w.line, cats);
    assert ms[0] == first && ms[1] == second;
  }

  /** Finds the label of a line: the search, then the sunglasses adjustment. */
  method FindLabel(w: Where, fc: Classification, categories: seq<string>) returns (r: Result<nat>)
    ensures r == Label(w, fc, categories)
  {
    if fc == Sunglasses {
      return Ok(if Contains(w.line, SunglassesWord) then 1 else 0);
    }
    var found :- Search(w, Searched(fc, categories));
    if found == -1 {
      return Err(NoCategory(w));
    }
    if fc == DirectionsSunglasses && Contains(w.line, SunglassesWord) {
      found := found + 4;
    }
    r := Ok(found);
  }

  /**
   * As written, the -1 check comes after the sunglasses adjustment, so a name
   * with "sunglasses" and no direction gets -1 + 4 = 3, the label of "up".
   */
  function LabelAsWritten(w: Where, fc: Classification, categories: seq<string>): (r: Result<int>)
  {
    if fc == Sunglasses then Ok(if Contains(w.line, SunglassesWord) then 1 else 0)
    else
      var found :- Found(w, Searched(fc, categories));
      var adjusted := if fc == DirectionsSunglasses && Contains(w.line, SunglassesWord) then found + 4 else found;
      if adjusted == -1 then Err(NoCategory(w)) else Ok(adjusted)
  }

  // ---------------------------------------------------------------------------
  // Properties of the label.

  /** For emotions, face directions and people, a line is labelled exactly when it names one category, and the label is that category. */
  lemma LabelIsTheOneMatch(w: Where, fc: Classification, categories: seq<string>)
    requires fc in {Emotions, Directions, People}
    ensures Label(w, fc, categories).Ok? <==> |Matches(w.line, categories)| == 1
    ensures Label(w, fc, categories).Ok? ==>
      var c := Label(w, fc, categories).value;
      c < |categories| && Contains(w.line, categories[c])
      && forall i | 0 <= i < |categories| && i != c :: !Contains(w.line, categories[i])
  {
    var ms := Matches(w.line, categories);
    MatchesExactly(w.line, categories, |categories|);
    assert Searched(fc, categories) == categories;
    if |ms| == 1 {
      assert Found(w, categories) == Ok(ms[0]);
      assert Label(w, fc, categories) == Ok(ms[0]);
      forall i | 0 <= i < |categories| && i != ms[0]
        ensures !Contains(w.line, categories[i])
      {
      }
    } else if |ms| >= 2 {
      assert Found(w, categories).Err?;
    } else {
      assert Found(w, categories) == Ok(-1);
    }
  }

  /** For sunglasses, every line is labelled: 1 exactly when its name contains "sunglasses". */
  lemma SunglassesLabel(w: Where, categories: seq<string>)
    ensures Label(w, Sunglasses, categories).Ok?
    ensures Label(w, Sunglasses, categories).value == 1 <==> Contains(w.line, SunglassesWord)
  {
  }

  /** For directions-sunglasses, the label is the one direction named, plus 4 exactly when the name contains "sunglasses". */
  lemma DirectionsSunglassesLabel(w: Where, categories: seq<string>)
    ensures Label(w, DirectionsSunglasses, categories).Ok? <==> |Matches(w.line, DirectionNames)| == 1
    ensures Label(w, DirectionsSunglasses, categories).Ok? ==>
      var c := Label(w, DirectionsSunglasses, categories).value;
      c < 8 && Contains(w.line, DirectionNames[c % 4]) && (c >= 4 <==> Contains(w.line, SunglassesWord))
  {
    MatchesExactly(w.line, DirectionNames, 4);
  }

  /** Every label is below the classification's label count. */
  lemma LabelInRange(w: Where, fc: Classification, categories: seq<string>)
    ensures Label(w, fc, categories).Ok? ==> Label(w, fc, categories).value < LabelCount(fc, categories)
  {
  }

  /** The name "sunglasses" holds no direction: as written it is labelled 3 ("up"); the corrected rule rejects it. */
  lemma SunglassesWithoutDirection(w: Where, categories: seq<string>)
    requires w.line == "sunglasses"
    ensures LabelAsWritten(w, DirectionsSunglasses, categories) == Ok(3)
    ensures Label(w, DirectionsSunglasses, categories) == Err(NoCategory(w))
  {
    assert OccursAt(w.line, SunglassesWord, 0);
    NamesNoDirection(w.line);
  }

  lemma NamesNoDirection(line: string)
    requires line == "sunglasses"
    ensures forall d | 0 <= d < 4 :: !Contains(line, DirectionNames[d])
  {
    forall d | 0 <= d < 4
      ensures !Contains(line, DirectionNames[d])
    {
      var p := DirectionNames[d];
      forall k: nat
        ensures !OccursAt(line, p, k)
      {
        if k + |p| <= |line| {
          assert line[k..k + |p|][0] == line[k] && line[k..k + |p|][1] == line[k + 1];
        }
      }
    }
  }

  // ---------------------------------------------------------------------------
  // One image per line of a list file.

  /**
   * What the list-file loop needs besides the lines: how to label the images,
   * their expected size, and std::stoi and std::stod for the PGM reader.
   */
  datatype Settings = Settings(fc: Classification, categories: seq<string>, suffix: string, width: nat, height: nat,
                               stoi: string -> Result<int>, stod: string -> Result<real>)

  const ImageDir := "faces/"

  /** The bytes of a file as the char buffer LoadPGMImage reads them into. */
  function AsBuffer(bytes: seq<byte>): (b: Pgm.Buffer)
    ensures |b| == |bytes| && forall i | 0 <= i < |b| :: b[i] as int == bytes[i] as int
  {
    seq(|bytes|, i requires 0 <= i < |bytes| => bytes[i] as int as char)
  }

  /** The PGM file at a path, if it can be opened. */
  function PgmFile(disk: Disk, fileName: string): Option<Pgm.Buffer>
  {
    if fileName in disk.binary then Some(AsBuffer(disk.binary[fileName])) else None
  }

  function WidthError(fileName: string, actual: nat, expected: nat): string
  {
    "Width of " + fileName + " (" + NumberText.NatToString(actual) + ") does not match expected width of "
    + NumberText.NatToString(expected)
  }

  function HeightError(fileName: string, actual: nat, expected: nat): string
  {
    "Height of " + fileName + " (" + NumberText.NatToString(actual) + ") does not match expected height of "
    + NumberText.NatToString(expected)
  }

  /** The number of labels a classification gives: 2 for sunglasses, 8 for directions-sunglasses, else one per category. */
  function LabelCount(fc: Classification, categories: seq<string>): nat
  {
    if fc == Sunglasses then 2 else if fc == DirectionsSunglasses then 8 else |categories|
  }

  /** An image a list can hold: one channel, the expected size, and a label the classification can give. */
  predicate Fits(s: Settings, image: Image)
  {
    image.channels == 1 && image.width == s.width && image.height == s.height && image.category < LabelCount(s.fc, s.categories)
  }

  /** The image a line names: its label, then the PGM file imageDir + line + suffix, then the size check. */
  function FaceImage(s: Settings, imageDir: string, w: Where, disk: Disk): (r: Result<Image>)
    ensures r.Ok? ==> Fits(s, r.value) && Label(w, s.fc, s.categories) == Ok(r.value.category)
  {
    LabelInRange(w, s.fc, s.categories);
    var category :- Label(w, s.fc, s.categories);
    var fileName := imageDir + w.line + s.suffix;
    var image :- Pgm.LoadPgm(fileName, PgmFile(disk, fileName), category, s.stoi, s.stod);
    if image.width != s.width then Err(WidthError(fileName, image.width, s.width))
    else if image.height != s.height then Err(HeightError(fileName, image.height, s.height))
    else Ok(image)
  }

  /** Line k of a list file, numbered from 1. */
  function LineAt(path: string, lines: seq<string>, k: nat): Where
    requires k < |lines|
  {
    Where(lines[k], k + 1, path)
  }

  /** The images of lines k onward of a list file, in order, or the first error. */
  function FacesFrom(s: Settings, imageDir: string, path: string, lines: seq<string>, k: nat, disk: Disk)
    : (r: Result<seq<Image>>)
    requires k <= |lines|
    ensures r.Ok? ==> |r.value| == |lines| - k && forall i | 0 <= i < |r.value| :: Fits(s, r.value[i])
    decreases |lines| - k
  {
    if k == |lines| then Ok([])
    else
      var image :- FaceImage(s, imageDir, LineAt(path, lines, k), disk);
      var rest :- FacesFrom(s, imageDir, path, lines, k + 1, disk);
      Ok([image] + rest)
  }

  function ListError(path: string): string { "Failed to open file " + path }

  /** The images of a whole list file under dataDir, or the first error. */
  function ListLoaded(s: Settings, dataDir: string, listFile: string, disk: Disk): Result<seq<Image>>
  {
    var path := dataDir + listFile;
    if path !in disk.text then Err(ListError(path))
    else FacesFrom(s, dataDir + ImageDir, path, disk.text[path], 0, disk)
  }

  /** Reads the image of one line. */
  method ReadFace(s: Settings, imageDir: string, w: Where, disk: Disk) returns (r: Result<Image>)
    ensures r == FaceImage(s, imageDir, w, disk)
  {
    var category :- FindLabel(w, s.fc, s.categories);
    var fileName := imageDir + w.line + s.suffix;
    var image :- Pgm.LoadPgmImage(fileName, PgmFile(disk, fileName), category, s.stoi, s.stod);
    if image.width != s.width {
      return Err(WidthError(fileName, image.width, s.width));
    }
    if image.height != s.height {
      return Err(HeightError(fileName, image.height, s.height));
    }
    r := Ok(image);
  }

  /** Reading one more line moves its image from the rest to what was read. */
  lemma FacesAdvance(s: Settings, imageDir: string, path: string, lines: seq<string>, k: nat, disk: Disk, done: seq<Image>)
    requires k < |lines|
    ensures FaceImage(s, imageDir, LineAt(path, lines, k), disk).Err? ==>
      After(done, FacesFrom(s, imageDir, path, lines, k, disk)) == Err(FaceImage(s, imageDir, LineAt(path, lines, k), disk).error)
    ensures FaceImage(s, imageDir, LineAt(path, lines, k), disk).Ok? ==>
      After(done, FacesFrom(s, imageDir, path, lines, k, disk))
      == After(done + [FaceImage(s, imageDir, LineAt(path, lines, k), disk).value], FacesFrom(s, imageDir, path, lines, k + 1, disk))
  {
    var image := FaceImage(s, imageDir, LineAt(path, lines, k), disk);
    var rest := FacesFrom(s, imageDir, path, lines, k + 1, disk);
    if image.Ok? && rest.Ok? {
      assert done + ([image.value] + rest.value) == done + [image.value] + rest.value;
    }
  }

  /** One pass of the line loop: line k's image is read and appended, or its error ends the loop. */
  method AddFace(imageSet: ImageSet, s: Settings, imageDir: string, path: string, lines: seq<string>, k: nat, disk: Disk,
                 isTest: bool, ghost oldTraining: seq<Image>, ghost oldTest: seq<Image>, ghost added: seq<Image>)
    returns (r: Result<Image>)
    requires k < |lines| && imageSet.Extends(isTest, oldTraining, oldTest, added)
    modifies imageSet`trainingSet, imageSet`testSet
    ensures r.Err? ==> After(added, FacesFrom(s, imageDir, path, lines, k, disk)) == Err(r.error)
    ensures r.Ok? ==> imageSet.Extends(isTest, oldTraining, oldTest, added + [r.value])
    ensures r.Ok? ==>
              After(added, FacesFrom(s, imageDir, path, lines, k, disk)) == After(added + [r.value], FacesFrom(s, imageDir, path, lines, k + 1, disk))
  {
    FacesAdvance(s, imageDir, path, lines, k, disk, added);
    r := ReadFace(s, imageDir, LineAt(path, lines, k), disk);
    if r.Ok? {
      imageSet.AddImage(r.value, isTest);
    }
  }

  /** The loop over the lines of an opened list file. */
  method AddFaces(imageSet: ImageSet, s: Settings, imageDir: string, path: string, lines: seq<string>, disk: Disk, isTest: bool)
    returns (r: Result<()>)
    modifies imageSet`trainingSet, imageSet`testSet
    ensures r.Err? ==> FacesFrom(s, imageDir, path, lines, 0, disk) == Err(r.error)
    ensures r.Ok? ==> FacesFrom(s, imageDir, path, lines, 0, disk).Ok? && imageSet.Extends(isTest,
      old(imageSet.trainingSet), old(imageSet.testSet), FacesFrom(s, imageDir, path, lines, 0, disk).value)
  {
    ghost var oldTraining := imageSet.trainingSet;
    ghost var oldTest := imageSet.testSet;
    ghost var all := FacesFrom(s, imageDir, path, lines, 0, disk);
    ghost var added: seq<Image> := [];
    AfterNothing(all);
    var lineNo := 0;
    while lineNo < |lines|
      invariant lineNo <= |lines|
      invariant imageSet.Extends(isTest, oldTraining, oldTest, added)
      invariant all == After(added, FacesFrom(s, imageDir, path, lines, lineNo, disk))
    {
      var image := AddFace(imageSet, s, imageDir, path, lines, lineNo, disk, isTest, oldTraining, oldTest, added);
      if image.Err? {
        return Err(image.error);
      }
      added := added + [image.value];
      lineNo := lineNo + 1;
    }
    assert added + [] == added;
    r := Ok(());
  }

  /** The static LoadFaces: opens the list file, then adds the image of each line in order, stopping at the first error. */
  method LoadList(imageSet: ImageSet, s: Settings, dataDir: string, listFile: string, disk: Disk, isTest: bool)
    returns (r: Result<()>)
    modifies imageSet`trainingSet, imageSet`testSet
    ensures r.Err? <==> ListLoaded(s, dataDir, listFile, disk).Err?
    ensures r.Err? ==> r.error == ListLoaded(s, dataDir, listFile, disk).error
    ensures r.Ok? ==> imageSet.Extends(isTest, old(imageSet.trainingSet), old(imageSet.testSet), ListLoaded(s, dataDir, listFile, disk).value)
  {
    var path := dataDir + listFile;
    if path !in disk.text {
      return Err(ListError(path));
    }
    r := AddFaces(imageSet, s, dataDir + ImageDir, path, disk.text[path], disk, isTest);
  }

  // ---------------------------------------------------------------------------
  // The whole set.

  const SizeVariable := "FISHNET_FACE_IMAGE_SIZE"
  const SizeError := "Environment variable FACE_IMAGE_SIZE has invalid value. It must be 1, 2, or 4."
  const TrainingList := "training_faces.txt"
  const TestList := "test_faces.txt"
  const FullWidth: nat := 128
  const FullHeight: nat := 120

  /** The file-name suffix of the images shrunk by size, which must be 1, 2 or 4. */
  function Suffix(size: int): (r: Result<string>)
    ensures r.Ok? <==> size == 1 || size == 2 || size == 4
  {
    if size == 1 then Ok(".pgm") else if size == 2 then Ok("_2.pgm") else if size == 4 then Ok("_4.pgm") else Err(SizeError)
  }

  /** The classification a set name selects. */
  function ClassificationNamed(name: string): Result<Classification>
  {
    if name == "emotions" then Ok(Emotions)
    else if name == "face-directions" then Ok(Directions)
    else if name == "people" then Ok(People)
    else if name == "sunglasses" then Ok(Sunglasses)
    else if name == "directions-sunglasses" then Ok(DirectionsSunglasses)
    else Err("Unknown face classification:" + name)
  }

  /** The set's category names under each classification. */
  function CategoriesOf(fc: Classification): seq<string>
  {
    match fc
    case Emotions => ["angry", "happy", "neutral", "sad"]
    case Directions => DirectionNames
    case People => ["an2i", "at33", "boland", "bpm", "ch4f", "cheyer", "choon", "danieln", "glickman", "karyadi",
      "kawamura", "kk49", "megak", "mitchell", "night", "phoebe", "saavik", "steffi", "sz24", "tammo"]
    case Sunglasses => ["no sunglasses", "sunglasses"]
    case DirectionsSunglasses =>
      DirectionNames + ["left sunglasses", "right sunglasses", "straight sunglasses", "up sunglasses"]
  }

  function SetName(classification: string, width: nat, height: nat): string
  {
    classification + " (" + NumberText.NatToString(width) + "x" + NumberText.NatToString(height) + ")"
  }

  /** What the public LoadFaces yields: the set's name, categories and image size, and its training and test images. */
  datatype FaceSet = FaceSet(name: string, categories: seq<string>, width: nat, height: nat, training: seq<Image>, test: seq<Image>)

  /** The set LoadFaces makes, or its first error; the lists are read unless dry. */
  function FacesLoaded(dataDir: string, classification: string, dry: bool, env: map<string, string>, disk: Disk,
                       stoi: string -> Result<int>, stod: string -> Result<real>): Result<FaceSet>
  {
    var text :- GetEnv(env, SizeVariable);
    var size :- stoi(text);
    var suffix :- Suffix(size);
    var width: nat := FullWidth / size;
    var height: nat := FullHeight / size;
    var fc :- ClassificationNamed(classification);
    var s := Settings(fc, CategoriesOf(fc), suffix, width, height, stoi, stod);
    var name := SetName(classification, width, height);
    if dry then Ok(FaceSet(name, CategoriesOf(fc), width, height, [], []))
    else
      var images :- ListsLoaded(s, dataDir, disk);
      Ok(FaceSet(name, CategoriesOf(fc), width, height, images.0, images.1))
  }

  /** The training list's images, then the test list's. */
  function ListsLoaded(s: Settings, dataDir: string, disk: Disk): Result<(seq<Image>, seq<Image>)>
  {
    var training :- ListLoaded(s, dataDir, TrainingList, disk);
    var test :- ListLoaded(s, dataDir, TestList, disk);
    Ok((training, test))
  }

  /** The switch on the image size. */
  method ChooseSuffix(size: int) returns (r: Result<string>)
    ensures r == Suffix(size)
  {
    if size == 1 {
      r := Ok(".pgm");
    } else if size == 2 {
      r := Ok("_2.pgm");
    } else if size == 4 {
      r := Ok("_4.pgm");
    } else {
      r := Err(SizeError);
    }
  }

  /** The choice of classification and categories by set name. */
  method ChooseCategories(classification: string) returns (r: Result<(Classification, seq<string>)>)
    ensures r.Err? <==> ClassificationNamed(classification).Err?
    ensures r.Err? ==> r.error == ClassificationNamed(classification).error
    ensures r.Ok? ==> r.value == (ClassificationNamed(classification).value, CategoriesOf(ClassificationNamed(classification).value))
  {
    if classification == "emotions" {
      r := Ok((Emotions, ["angry", "happy", "neutral", "sad"]));
    } else if classification == "face-directions" {
      r := Ok((Directions, DirectionNames));
    } else if classification == "people" {
      r := Ok((People, ["an2i", "at33", "boland", "bpm", "ch4f", "cheyer", "choon", "danieln", "glickman", "karyadi",
        "kawamura", "kk49", "megak", "mitchell", "night", "phoebe", "saavik", "steffi", "sz24", "tammo"]));
    } else if classification == "sunglasses" {
      r := Ok((Sunglasses, ["no sunglasses", "sunglasses"]));
    } else if classification == "directions-sunglasses" {
      r := Ok((DirectionsSunglasses,
        DirectionNames + ["left sunglasses", "right sunglasses", "straight sunglasses", "up sunglasses"]));
    } else {
      r := Err("Unknown face classification:" + classification);
    }
  }

  /** Loads the training list, then the test list, into an empty set. */
  method LoadLists(imageSet: ImageSet, s: Settings, dataDir: string, disk: Disk) returns (r: Result<()>)
    requires imageSet.trainingSet == [] && imageSet.testSet == []
    modifies imageSet`trainingSet, imageSet`testSet
    ensures r.Err? <==> ListsLoaded(s, dataDir, disk).Err?
    ensures r.Err? ==> r.error == ListsLoaded(s, dataDir, disk).error
    ensures r.Ok? ==> (imageSet.trainingSet, imageSet.testSet) == ListsLoaded(s, dataDir, disk).value
  {
    var training := LoadList(imageSet, s, dataDir, TrainingList, disk, false);
    if training.Err? {
      return Err(training.error);
    }
    ghost var trainingImages := ListLoaded(s, dataDir, TrainingList, disk).value;
    assert imageSet.trainingSet == [] + trainingImages == trainingImages;
    var test := LoadList(imageSet, s, dataDir, TestList, disk, true);
    if test.Err? {
      return Err(test.error);
    }
    ghost var testImages := ListLoaded(s, dataDir, TestList, disk).value;
    assert imageSet.testSet == [] + testImages == testImages;
    assert ListsLoaded(s, dataDir, disk) == Ok((trainingImages, testImages));
    r := Ok(());
  }

  /** The public LoadFaces: the image size from the environment, the classification's categories, then the two lists unless dry. */
  method LoadFaces(dataDir: string, classification: string, dry: bool, env: map<string, string>, disk: Disk,
                   stoi: string -> Result<int>, stod: string -> Result<real>) returns (r: Result<ImageSet>)
    ensures r.Err? <==> FacesLoaded(dataDir, classification, dry, env, disk, stoi, stod).Err?
    ensures r.Err? ==> r.error == FacesLoaded(dataDir, classification, dry, env, disk, stoi, stod).error
    ensures r.Ok? ==> (fresh(r.value) && r.value.channels == 1 && var f := FacesLoaded(dataDir, classification, dry, env, disk, stoi, stod).value;
      r.value.name == f.name && r.value.categories == f.categories && r.value.width == f.width && r.value.height == f.height
      && r.value.trainingSet == f.training && r.value.testSet == f.test)
  {
    var text :- GetEnv(env, SizeVariable);
    var size :- stoi(text);
    var suffix :- ChooseSuffix(size);
    var width: nat := FullWidth / size;
    var height: nat := FullHeight / size;
    var chosen :- ChooseCategories(classification);
    var name := classification + " (" + NumberText.NatToString(width) + "x" + NumberText.NatToString(height) + ")";
    var imageSet := new ImageSet(name, chosen.1, 1, width, height);
    if !dry {
      var loaded := LoadLists(imageSet, Settings(chosen.0, chosen.1, suffix, width, height, stoi, stod), dataDir, disk);
      if loaded.Err? {
        return Err(loaded.error);
      }
    }
    r := Ok(imageSet);
  }

  /**
   * Every image a faces set holds has one channel, the set's size, and a
   * category that names one of the set's categories.
   */
  lemma LoadedFacesFit(dataDir: string, classification: string, dry: bool, env: map<string, string>, disk: Disk,
                       stoi: string -> Result<int>, stod: string -> Result<real>)
    requires FacesLoaded(dataDir, classification, dry, env, disk, stoi, stod).Ok?
    ensures var f := FacesLoaded(dataDir, classification, dry, env, disk, stoi, stod).value;
      forall image | image in f.training + f.test ::
        image.channels == 1 && image.width == f.width && image.height == f.height && image.category < |f.categories|
  {
  }
}
