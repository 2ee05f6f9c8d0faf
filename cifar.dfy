/**
 * The CIFAR-10 reader: five training batches and one test batch, each of
 * 10000 records of a label byte followed by 3 × 32 × 32 pixel bytes, and a
 * text file naming the ten categories one per line.
 */
module Cifar {
  import opened Wrappers
  import opened Files
  import opened ImageSets
  import NumberText

  const Channels: nat := 3
  const Side: nat := 32
  const ImageSize: nat := 3072
  const RecordSize: nat := 3073
  const Records: nat := 10000
  const Batches: nat := 5

  const InvalidLabel := "Invalid label."
  const BatchDir := "cifar-10-batches-bin/"
  const MetaFile := "batches.meta.txt"

  // ---------------------------------------------------------------------------
  // One batch file.

  /** The label byte of record i. */
  function Label(file: seq<byte>, i: nat): nat
  {
    Filled(file, RecordSize * i)
  }

  /** The pixels of record i: the 3072 bytes after its label, each scaled into [0, 1]. */
  function Pixels(file: seq<byte>, start: nat): (xs: seq<real>)
    ensures |xs| == ImageSize && forall j | 0 <= j < |xs| :: xs[j] == Intensity(Filled(file, start + j))
  {
    seq(ImageSize, j requires 0 <= j => Intensity(Filled(file, start + j)))
  }

  function CifarImage(file: seq<byte>, i: nat): Image
  {
    Image(Pixels(file, RecordSize * i + 1), Channels, Side, Side, Label(file, i))
  }

  /** The first n records as images. */
  function CifarImages(file: seq<byte>, n: nat): (xs: seq<Image>)
    ensures |xs| == n
  {
    seq(n, i requires 0 <= i => CifarImage(file, i))
  }

  lemma CifarImagesExtend(file: seq<byte>, i: nat)
    ensures CifarImages(file, i + 1) == CifarImages(file, i) + [CifarImage(file, i)]
  {
  }

  /** The index of the first record from i on whose label exceeds 9, or 10000 when there is none. */
  function FirstInvalid(file: seq<byte>, i: nat): (k: nat)
    requires i <= Records
    ensures i <= k <= Records
    ensures forall j | i <= j < k :: Label(file, j) <= 9
    ensures k < Records ==> Label(file, k) > 9
    decreases Records - i
  {
    if i == Records then Records else if Label(file, i) > 9 then i else FirstInvalid(file, i + 1)
  }

  /** A batch's 10000 images, or the error that stops the reading. */
  function ReadBatch(fileName: string, disk: Disk): (r: Result<seq<Image>>)
    ensures r.Ok? ==> |r.value| == Records && forall i | 0 <= i < Records :: r.value[i].category <= 9
  {
    if fileName !in disk.binary then Err(OpenError(fileName))
    else
      var file := disk.binary[fileName];
      if FirstInvalid(file, 0) < Records then Err(InvalidLabel) else Ok(CifarImages(file, Records))
  }

  /** Reads the pixels of one record through a moving index. */
  method ReadPixels(file: seq<byte>, start: nat) returns (pixels: seq<real>)
    ensures pixels == Pixels(file, start)
  {
    pixels := [];
    var data := start;
    var j := 0;
    while j < ImageSize
      invariant j <= ImageSize && |pixels| == j && data == start + j
      invariant forall k | 0 <= k < j :: pixels[k] == Intensity(Filled(file, start + k))
    {
      pixels := pixels + [Intensity(Filled(file, data))];
      data := data + 1;
      j := j + 1;
    }
  }

  /** The loop over the records of an opened batch file. */
  method AddRecords(imageSet: ImageSet, file: seq<byte>, isTest: bool) returns (r: Result<()>)
    modifies imageSet`trainingSet, imageSet`testSet
    ensures r.Err? <==> FirstInvalid(file, 0) < Records
    ensures r.Err? ==> r.error == InvalidLabel
    ensures imageSet.Extends(isTest, old(imageSet.trainingSet), old(imageSet.testSet), CifarImages(file, FirstInvalid(file, 0)))
  {
    ghost var oldTraining := imageSet.trainingSet;
    ghost var oldTest := imageSet.testSet;
    assert CifarImages(file, 0) == [];
    var data := 0;
    var i := 0;
    while i < Records
      invariant i <= Records && data == RecordSize * i
      invariant FirstInvalid(file, i) == FirstInvalid(file, 0)
      invariant imageSet.Extends(isTest, oldTraining, oldTest, CifarImages(file, i))
    {
      var added := AddRecord(imageSet, file, i, data, isTest, oldTraining, oldTest);
      if !added {
        return Err(InvalidLabel);
      }
      data := data + RecordSize;
      i := i + 1;
    }
    r := Ok(());
  }

  /** One pass of the record loop: record i is added unless its label exceeds 9. */
  method AddRecord(imageSet: ImageSet, file: seq<byte>, i: nat, data: nat, isTest: bool,
                   ghost oldTraining: seq<Image>, ghost oldTest: seq<Image>) returns (added: bool)
    requires i < Records && data == RecordSize * i
    requires imageSet.Extends(isTest, oldTraining, oldTest, CifarImages(file, i))
    modifies imageSet`trainingSet, imageSet`testSet
    ensures added <==> Label(file, i) <= 9
    ensures !added ==> imageSet.trainingSet == old(imageSet.trainingSet) && imageSet.testSet == old(imageSet.testSet)
    ensures added ==> imageSet.Extends(isTest, oldTraining, oldTest, CifarImages(file, i + 1))
  {
    var category := Filled(file, data);
    if category > 9 {
      return false;
    }
    var pixels := ReadPixels(file, data + 1);
    var image := Image(pixels, Channels, Side, Side, category);
    assert image == CifarImage(file, i);
    CifarImagesExtend(file, i);
    imageSet.AddImage(image, isTest);
    added := true;
  }

  /**
   * LoadCIFARData: adds the records of one batch in order and stops with an
   * error at the first label above 9, keeping the images added before it.
   */
  method LoadCifarData(imageSet: ImageSet, fileName: string, disk: Disk, isTest: bool) returns (r: Result<()>)
    modifies imageSet`trainingSet, imageSet`testSet
    ensures r.Err? <==> ReadBatch(fileName, disk).Err?
    ensures r.Err? ==> r.error == ReadBatch(fileName, disk).error
    ensures fileName !in disk.binary ==> imageSet.trainingSet == old(imageSet.trainingSet) && imageSet.testSet == old(imageSet.testSet)
    ensures fileName in disk.binary ==> imageSet.Extends(isTest, old(imageSet.trainingSet), old(imageSet.testSet),
      CifarImages(disk.binary[fileName], FirstInvalid(disk.binary[fileName], 0)))
  {
    if fileName !in disk.binary {
      return Err(OpenError(fileName));
    }
    r := AddRecords(imageSet, disk.binary[fileName], isTest);
  }

  // ---------------------------------------------------------------------------
  // The whole set.

  /** The path of training batch k, for k from 1 to 5. */
  function TrainingBatch(dir: string, k: nat): string
    requires 1 <= k <= Batches
  {
    dir + "data_batch_" + [NumberText.DigitChar(k)] + ".bin"
  }

  function TestBatch(dir: string): string { dir + "test_batch.bin" }

  /** The images of training batches k to 5 in order, or the first error. */
  function TrainingFrom(dir: string, disk: Disk, k: nat): (r: Result<seq<Image>>)
    requires 1 <= k <= Batches + 1
    ensures r.Ok? ==> |r.value| == Records * (Batches + 1 - k)
    decreases Batches + 1 - k
  {
    if k == Batches + 1 then Ok([])
    else
      var batch :- ReadBatch(TrainingBatch(dir, k), disk);
      var rest :- TrainingFrom(dir, disk, k + 1);
      Ok(batch + rest)
  }

  /** Category c: line c of the category file, or empty past its end. */
  function CategoryNames(lines: seq<string>): (cs: seq<string>)
    ensures |cs| == 10
    ensures forall c | 0 <= c < 10 :: cs[c] == if c < |lines| then lines[c] else ""
  {
    seq(10, c requires 0 <= c => if c < |lines| then lines[c] else "")
  }

  function MetaError(path: string): string { "Failed to open file " + path }

  /** The training images and the test images, or the first error. */
  function BatchesLoaded(dir: string, disk: Disk): Result<(seq<Image>, seq<Image>)>
  {
    var training :- TrainingFrom(dir, disk, 1);
    var test :- ReadBatch(TestBatch(dir), disk);
    Ok((training, test))
  }

  /** The categories, the training images and the test images LoadCIFAR10 reads, or its first error. */
  function Loaded(dataDir: string, disk: Disk): Result<(seq<string>, seq<Image>, seq<Image>)>
  {
    var dir := dataDir + BatchDir;
    if dir + MetaFile !in disk.text then Err(MetaError(dir + MetaFile))
    else
      var images :- BatchesLoaded(dir, disk);
      Ok((CategoryNames(disk.text[dir + MetaFile]), images.0, images.1))
  }

  /** Reading one more batch moves its images from the rest to what was read. */
  lemma TrainingAdvance(dir: string, disk: Disk, k: nat, done: seq<Image>)
    requires 1 <= k <= Batches
    ensures ReadBatch(TrainingBatch(dir, k), disk).Err? ==>
      After(done, TrainingFrom(dir, disk, k)) == Err(ReadBatch(TrainingBatch(dir, k), disk).error)
    ensures ReadBatch(TrainingBatch(dir, k), disk).Ok? ==>
      After(done, TrainingFrom(dir, disk, k))
      == After(done + ReadBatch(TrainingBatch(dir, k), disk).value, TrainingFrom(dir, disk, k + 1))
  {
    var b := ReadBatch(TrainingBatch(dir, k), disk);
    var rest := TrainingFrom(dir, disk, k + 1);
    if b.Ok? && rest.Ok? {
      assert done + (b.value + rest.value) == done + b.value + rest.value;
    }
  }

  /** Reads the categories, unless dry; makes the "CIFAR-10" set of 3 × 32 × 32 images. */
  method LoadCategories(cifarDir: string, dry: bool, disk: Disk) returns (r: Result<seq<string>>)
    ensures r.Err? <==> !dry && cifarDir + MetaFile !in disk.text
    ensures r.Err? ==> r.error == MetaError(cifarDir + MetaFile)
    ensures r.Ok? && dry ==> r.value == seq(10, _ => "")
    ensures r.Ok? && !dry ==> r.value == CategoryNames(disk.text[cifarDir + MetaFile])
  {
    var categories: seq<string> := seq(10, _ => "");
    if !dry {
      var labelName := cifarDir + MetaFile;
      if labelName !in disk.text {
        return Err(MetaError(labelName));
      }
      var lines := disk.text[labelName];
      var category := 0;
      while category < 10
        invariant category <= 10 && |categories| == 10
        invariant forall c | 0 <= c < category :: categories[c] == CategoryNames(lines)[c]
        invariant forall c | category <= c < 10 :: categories[c] == ""
      {
        if category < |lines| {
          categories := categories[category := lines[category]];
        }
        category := category + 1;
      }
    }
    r := Ok(categories);
  }

  /** A batch that reads without error is its file's 10000 records. */
  lemma BatchReadWhole(fileName: string, disk: Disk)
    requires ReadBatch(fileName, disk).Ok?
    ensures fileName in disk.binary && FirstInvalid(disk.binary[fileName], 0) == Records
    ensures ReadBatch(fileName, disk).value == CifarImages(disk.binary[fileName], Records)
  {
  }

  /** The loop over the training batches data_batch_1.bin to data_batch_5.bin. */
  method LoadTrainingBatches(imageSet: ImageSet, cifarDir: string, disk: Disk) returns (r: Result<()>)
    requires imageSet.trainingSet == [] && imageSet.testSet == []
    modifies imageSet`trainingSet, imageSet`testSet
    ensures r.Err? <==> TrainingFrom(cifarDir, disk, 1).Err?
    ensures r.Err? ==> r.error == TrainingFrom(cifarDir, disk, 1).error
    ensures r.Ok? ==> imageSet.trainingSet == TrainingFrom(cifarDir, disk, 1).value && imageSet.testSet == []
  {
    ghost var all := TrainingFrom(cifarDir, disk, 1);
    AfterNothing(all);
    var k := 1;
    while k <= Batches
      invariant 1 <= k <= Batches + 1 && imageSet.testSet == []
      invariant all == After(imageSet.trainingSet, TrainingFrom(cifarDir, disk, k))
    {
      var fileName := cifarDir + "data_batch_" + [NumberText.DigitChar(k)] + ".bin";
      assert fileName == TrainingBatch(cifarDir, k);
      TrainingAdvance(cifarDir, disk, k, imageSet.trainingSet);
      var loaded := LoadCifarData(imageSet, fileName, disk, false);
      if loaded.Err? {
        return Err(loaded.error);
      }
      BatchReadWhole(fileName, disk);
      k := k + 1;
    }
    assert imageSet.trainingSet + [] == imageSet.trainingSet;
    r := Ok(());
  }

  /** The training batches, then the test batch. */
  method LoadBatches(imageSet: ImageSet, cifarDir: string, disk: Disk) returns (r: Result<()>)
    requires imageSet.trainingSet == [] && imageSet.testSet == []
    modifies imageSet`trainingSet, imageSet`testSet
    ensures r.Err? <==> BatchesLoaded(cifarDir, disk).Err?
    ensures r.Err? ==> r.error == BatchesLoaded(cifarDir, disk).error
    ensures r.Ok? ==> (imageSet.trainingSet, imageSet.testSet) == BatchesLoaded(cifarDir, disk).value
  {
    imageSet.ReserveTrainingSpace(50000);
    imageSet.ReserveTestSpace(10000);
    var training := LoadTrainingBatches(imageSet, cifarDir, disk);
    if training.Err? {
      return Err(training.error);
    }
    var test := LoadCifarData(imageSet, TestBatch(cifarDir), disk, true);
    if test.Err? {
      return Err(test.error);
    }
    BatchReadWhole(TestBatch(cifarDir), disk);
    ghost var testImages := ReadBatch(TestBatch(cifarDir), disk).value;
    assert imageSet.testSet == [] + testImages;
    assert [] + testImages == testImages;
    r := Ok(());
  }

  /** LoadCIFAR10: the categories, then training batches 1 to 5 and the test batch, unless dry. */
  method LoadCifar10(dataDir: string, dry: bool, disk: Disk) returns (r: Result<ImageSet>)
    ensures r.Err? <==> !dry && Loaded(dataDir, disk).Err?
    ensures r.Err? ==> r.error == Loaded(dataDir, disk).error
    ensures r.Ok? ==> (fresh(r.value) && r.value.name == "CIFAR-10"
      && r.value.channels == Channels && r.value.width == Side && r.value.height == Side)
    ensures r.Ok? && dry ==> r.value.categories == seq(10, _ => "") && r.value.trainingSet == [] && r.value.testSet == []
    ensures r.Ok? && !dry ==> (r.value.categories, r.value.trainingSet, r.value.testSet) == Loaded(dataDir, disk).value
  {
    var cifarDir := dataDir + BatchDir;
    var categories :- LoadCategories(cifarDir, dry, disk);
    var imageSet := new ImageSet("CIFAR-10", categories, Channels, Side, Side);
    if !dry {
      var loaded := LoadBatches(imageSet, cifarDir, disk);
      if loaded.Err? {
        return Err(loaded.error);
      }
    }
    r := Ok(imageSet);
  }

  /** Every image read is one 3 × 32 × 32 record of samples in [0, 1] whose category is at most 9. */
  lemma BatchImagesAreWellFormed(fileName: string, disk: Disk)
    requires ReadBatch(fileName, disk).Ok?
    ensures forall i | 0 <= i < Records :: var im := ReadBatch(fileName, disk).value[i];
      im.channels == Channels && im.width == Side && im.height == Side && im.category <= 9
      && |im.inputs| == im.channels * im.width * im.height
      && forall j | 0 <= j < |im.inputs| :: 0.0 <= im.inputs[j] <= 1.0
  {
    forall i | 0 <= i < Records
      ensures var im := ReadBatch(fileName, disk).value[i];
        im.channels == Channels && im.width == Side && im.height == Side && im.category <= 9
        && |im.inputs| == im.channels * im.width * im.height
        && forall j | 0 <= j < |im.inputs| :: 0.0 <= im.inputs[j] <= 1.0
    {
      var im := ReadBatch(fileName, disk).value[i];
      assert im == CifarImage(disk.binary[fileName], i);
      assert Channels * Side * Side == ImageSize;
    }
  }

  /** A batch whose every label is at most 9 is read whole; a single label above 9 anywhere rejects it. */
  lemma InvalidLabelAnywhereRejects(fileName: string, disk: Disk)
    requires fileName in disk.binary
    ensures ReadBatch(fileName, disk).Ok? <==> forall i | 0 <= i < Records :: Label(disk.binary[fileName], i) <= 9
  {
    var file := disk.binary[fileName];
    var k := FirstInvalid(file, 0);
    if k < Records {
      assert Label(file, k) > 9;
    }
  }
}
