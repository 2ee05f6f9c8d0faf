/**
 * The MNIST reader: an IDX image file (magic 2051, count, 28, 28, then one
 * byte per pixel) and an IDX label file (magic 2049, count, then one byte
 * per label), their integers stored most significant byte first.
 */
module Mnist {
  import opened Wrappers
  import opened Files
  import opened ImageSets
  import NumberText

  const ImageMagic: nat := 2051
  const LabelMagic: nat := 2049
  const Side: nat := 28
  const PixelsPerImage: nat := 784
  const ImageHeader: nat := 16
  const LabelHeader: nat := 8
  const U32Limit: nat := 0x1_0000_0000

  const TrainImages := "train-images-idx3-ubyte"
  const TrainLabels := "train-labels-idx1-ubyte"
  const TestImages := "t10k-images-idx3-ubyte"
  const TestLabels := "t10k-labels-idx1-ubyte"

  // ---------------------------------------------------------------------------
  // Big-endian integers.

  /** ReadInt: the uint32_t whose four bytes start at at, most significant first; past the end of the file the model reads 0. */
  function ReadInt(file: seq<byte>, at: nat): (n: nat)
    ensures n < U32Limit
  {
    ((Filled(file, at) * 256 + Filled(file, at + 1)) * 256 + Filled(file, at + 2)) * 256 + Filled(file, at + 3)
  }

  /** The four bytes of n, most significant first, as the IDX format stores it. */
  function BigEndian(n: nat): (bs: seq<byte>)
    requires n < U32Limit
    ensures |bs| == 4
  {
    [(n / 0x100_0000) as byte, (n / 0x1_0000 % 256) as byte, (n / 256 % 256) as byte, (n % 256) as byte]
  }

  /** Reading back the bytes of n wherever they sit gives n. */
  lemma ReadIntRoundTrip(prefix: seq<byte>, n: nat, rest: seq<byte>)
    requires n < U32Limit
    ensures ReadInt(prefix + BigEndian(n) + rest, |prefix|) == n
  {
    var s := prefix + BigEndian(n) + rest;
    var p := |prefix|;
    assert Filled(s, p) == n / 0x100_0000;
    assert Filled(s, p + 1) == n / 0x1_0000 % 256;
    assert Filled(s, p + 2) == n / 256 % 256;
    assert Filled(s, p + 3) == n % 256;
    BigEndianDigits(n);
  }

  /** n is rebuilt from its four base-256 digits, most significant first. */
  lemma BigEndianDigits(n: nat)
    requires n < U32Limit
    ensures ((n / 0x100_0000 * 256 + n / 0x1_0000 % 256) * 256 + n / 256 % 256) * 256 + n % 256 == n
  {
    var q1 := n / 256;
    var q2 := q1 / 256;
    assert n / 0x1_0000 == q2;
    assert n / 0x100_0000 == q2 / 256;
  }

  // ---------------------------------------------------------------------------
  // The specification of the reader.

  function BadImageFile(name: string): string { name + " is not a valid MNIST image file." }
  function BadLabelFile(name: string): string { name + " is not a valid MNIST label file." }
  const CountMismatch := "Label count does not match image count."
  const BadSize := "Incorrect image size."

  /** The image count, once both files are open and their headers agree. */
  function Check(imageName: string, labelName: string, disk: Disk): (r: Result<nat>)
    ensures r.Ok? ==> imageName in disk.binary && labelName in disk.binary
    ensures r.Ok? ==> ReadInt(disk.binary[imageName], 0) == ImageMagic && ReadInt(disk.binary[labelName], 0) == LabelMagic
    ensures r.Ok? ==> r.value == ReadInt(disk.binary[imageName], 4) == ReadInt(disk.binary[labelName], 4)
    ensures r.Ok? ==> ReadInt(disk.binary[imageName], 8) == Side && ReadInt(disk.binary[imageName], 12) == Side
  {
    if imageName !in disk.binary then Err(OpenError(imageName))
    else if labelName !in disk.binary then Err(OpenError(labelName))
    else
      var images := disk.binary[imageName];
      var labels := disk.binary[labelName];
      if ReadInt(images, 0) != ImageMagic then Err(BadImageFile(imageName))
      else if ReadInt(labels, 0) != LabelMagic then Err(BadLabelFile(labelName))
      else if ReadInt(images, 4) != ReadInt(labels, 4) then Err(CountMismatch)
      else if ReadInt(images, 8) != Side || ReadInt(images, 12) != Side then Err(BadSize)
      else Ok(ReadInt(images, 4))
  }

  /** The 784 pixels from start on, each scaled into [0, 1]. */
  function Pixels(images: seq<byte>, start: nat): (xs: seq<real>)
    ensures |xs| == PixelsPerImage && forall j | 0 <= j < |xs| :: xs[j] == Intensity(Filled(images, start + j))
    ensures forall j | 0 <= j < |xs| :: 0.0 <= xs[j] <= 1.0
  {
    seq(PixelsPerImage, j requires 0 <= j => Intensity(Filled(images, start + j)))
  }

  /** Image i: its pixels follow the 16-byte header and the images before it; its label follows the 8-byte header. */
  function MnistImage(images: seq<byte>, labels: seq<byte>, i: nat): Image
  {
    Image(Pixels(images, ImageHeader + PixelsPerImage * i), 1, Side, Side, Filled(labels, LabelHeader + i))
  }

  /** The first n images. */
  function MnistImages(images: seq<byte>, labels: seq<byte>, n: nat): (xs: seq<Image>)
    ensures |xs| == n
  {
    seq(n, i requires 0 <= i => MnistImage(images, labels, i))
  }

  /** Every image is one 28 × 28 channel of samples in [0, 1] with a byte label. */
  lemma MnistImagesAreWellFormed(images: seq<byte>, labels: seq<byte>, n: nat)
    ensures forall i | 0 <= i < n :: var im := MnistImages(images, labels, n)[i];
      im.channels == 1 && im.width == Side && im.height == Side && im.category < 256
      && |im.inputs| == im.width * im.height
      && forall j | 0 <= j < |im.inputs| :: 0.0 <= im.inputs[j] <= 1.0
  {
    forall i | 0 <= i < n
      ensures var im := MnistImages(images, labels, n)[i];
        im.channels == 1 && im.width == Side && im.height == Side && im.category < 256
        && |im.inputs| == im.width * im.height
        && forall j | 0 <= j < |im.inputs| :: 0.0 <= im.inputs[j] <= 1.0
    {
      var im := MnistImages(images, labels, n)[i];
      assert im == MnistImage(images, labels, i);
      assert Side * Side == PixelsPerImage;
    }
  }

  /** Files written with the header the reader expects are accepted, with their count. */
  lemma WellFormedFilesAccepted(imageName: string, labelName: string, disk: Disk, n: nat, pixels: seq<byte>, marks: seq<byte>)
    requires n < U32Limit
    requires imageName in disk.binary && labelName in disk.binary
    requires disk.binary[imageName] == BigEndian(ImageMagic) + BigEndian(n) + BigEndian(Side) + BigEndian(Side) + pixels
    requires disk.binary[labelName] == BigEndian(LabelMagic) + BigEndian(n) + marks
    ensures Check(imageName, labelName, disk) == Ok(n)
  {
    var images := disk.binary[imageName];
    var labels := disk.binary[labelName];
    ReadIntRoundTrip([], ImageMagic, BigEndian(n) + BigEndian(Side) + BigEndian(Side) + pixels);
    assert images == [] + BigEndian(ImageMagic) + (BigEndian(n) + BigEndian(Side) + BigEndian(Side) + pixels);
    ReadIntRoundTrip(BigEndian(ImageMagic), n, BigEndian(Side) + BigEndian(Side) + pixels);
    assert images == BigEndian(ImageMagic) + BigEndian(n) + (BigEndian(Side) + BigEndian(Side) + pixels);
    ReadIntRoundTrip(BigEndian(ImageMagic) + BigEndian(n), Side, BigEndian(Side) + pixels);
    assert images == BigEndian(ImageMagic) + BigEndian(n) + BigEndian(Side) + (BigEndian(Side) + pixels);
    ReadIntRoundTrip(BigEndian(ImageMagic) + BigEndian(n) + BigEndian(Side), Side, pixels);
    ReadIntRoundTrip([], LabelMagic, BigEndian(n) + marks);
    assert labels == [] + BigEndian(LabelMagic) + (BigEndian(n) + marks);
    ReadIntRoundTrip(BigEndian(LabelMagic), n, marks);
  }

  // ---------------------------------------------------------------------------
  // The reader.

  /** Reads the 784 pixels of one image through a moving index. */
  method ReadPixels(images: seq<byte>, start: nat) returns (pixels: seq<real>)
    ensures pixels == Pixels(images, start)
  {
    pixels := [];
    var data := start;
    var j := 0;
    while j < PixelsPerImage
      invariant j <= PixelsPerImage && |pixels| == j && data == start + j
      invariant forall k | 0 <= k < j :: pixels[k] == Intensity(Filled(images, start + k))
    {
      pixels := pixels + [Intensity(Filled(images, data))];
      data := data + 1;
      j := j + 1;
    }
  }

  /**
   * LoadMNISTData: checks both headers, then adds every image with its label
   * to the training or the test list. On an error neither list changes.
   */
  method LoadMnistData(imageSet: ImageSet, imageName: string, labelName: string, disk: Disk, isTest: bool)
    returns (r: Result<()>)
    modifies imageSet`trainingSet, imageSet`testSet
    ensures r.Err? <==> Check(imageName, labelName, disk).Err?
    ensures r.Err? ==> (r.error == Check(imageName, labelName, disk).error
      && imageSet.trainingSet == old(imageSet.trainingSet) && imageSet.testSet == old(imageSet.testSet))
    ensures r.Ok? ==> imageSet.Extends(isTest, old(imageSet.trainingSet), old(imageSet.testSet),
      MnistImages(disk.binary[imageName], disk.binary[labelName], Check(imageName, labelName, disk).value))
  {
    var count :- Check(imageName, labelName, disk);
    var images := disk.binary[imageName];
    var labels := disk.binary[labelName];
    if isTest {
      imageSet.ReserveTestSpace(count);
    } else {
      imageSet.ReserveTrainingSpace(count);
    }
    ghost var oldTraining := imageSet.trainingSet;
    ghost var oldTest := imageSet.testSet;
    var data := ImageHeader;
    var i := 0;
    assert MnistImages(images, labels, 0) == [];
    while i < count
      invariant i <= count && data == ImageHeader + PixelsPerImage * i
      invariant imageSet.Extends(isTest, oldTraining, oldTest, MnistImages(images, labels, i))
    {
      var pixels := ReadPixels(images, data);
      var image := Image(pixels, 1, Side, Side, Filled(labels, LabelHeader + i));
      assert MnistImages(images, labels, i + 1) == MnistImages(images, labels, i) + [image];
      imageSet.AddImage(image, isTest);
      data := data + PixelsPerImage;
      i := i + 1;
    }
    r := Ok(());
  }

  /** The ten categories, named by std::to_string of 0 to 9. */
  function Categories(): (cs: seq<string>)
    ensures |cs| == 10
  {
    seq(10, n requires 0 <= n => NumberText.NatToString(n))
  }

  /** Category n is the single digit n. */
  lemma CategoriesAreDigits()
    ensures forall n | 0 <= n < 10 :: Categories()[n] == [NumberText.DigitChar(n)]
  {
  }

  /** The training and test lists LoadMNIST reads, or its first error. */
  function Loaded(dataDir: string, disk: Disk): (r: Result<(seq<Image>, seq<Image>)>)
  {
    var dir := dataDir + "MNIST/";
    var training :- Check(dir + TrainImages, dir + TrainLabels, disk);
    var test :- Check(dir + TestImages, dir + TestLabels, disk);
    Ok((MnistImages(disk.binary[dir + TrainImages], disk.binary[dir + TrainLabels], training),
        MnistImages(disk.binary[dir + TestImages], disk.binary[dir + TestLabels], test)))
  }

  /** LoadMNIST: the "MNIST" set of 28 × 28 one-channel images; a dry run reads no file. */
  method LoadMnist(dataDir: string, dry: bool, disk: Disk) returns (r: Result<ImageSet>)
    ensures r.Err? <==> !dry && Loaded(dataDir, disk).Err?
    ensures r.Err? ==> r.error == Loaded(dataDir, disk).error
    ensures r.Ok? ==> (fresh(r.value) && r.value.name == "MNIST" && r.value.categories == Categories()
      && r.value.channels == 1 && r.value.width == Side && r.value.height == Side)
    ensures r.Ok? && dry ==> r.value.trainingSet == [] && r.value.testSet == []
    ensures r.Ok? && !dry ==>
      r.value.trainingSet == Loaded(dataDir, disk).value.0 && r.value.testSet == Loaded(dataDir, disk).value.1
  {
    var mnistDir := dataDir + "MNIST/";
    var categories: seq<string> := [];
    var n := 0;
    while n < 10
      invariant n <= 10 && categories == Categories()[..n]
    {
      categories := categories + [NumberText.NatToString(n)];
      n := n + 1;
    }
    var imageSet := new ImageSet("MNIST", categories, 1, Side, Side);
    if !dry {
      var training := LoadMnistData(imageSet, mnistDir + TrainImages, mnistDir + TrainLabels, disk, false);
      if training.Err? {
        return Err(training.error);
      }
      var test := LoadMnistData(imageSet, mnistDir + TestImages, mnistDir + TestLabels, disk, true);
      if test.Err? {
        return Err(test.error);
      }
    }
    r := Ok(imageSet);
  }
}
