/**
 * The image uploader (main.py): `create_dicom_from_image` turns an RGB image
 * into a Secondary Capture file, and `upload_image_to_dicom_server` overrides a
 * few attributes of that file and stores it on a remote AE.
 *
 * Loading and converting the image is left to the caller: the model starts from
 * the converted image's shape and the bytes `tobytes()` returns. The three clock
 * reads (`dt` in the builder, and the default exam date and time in the upload)
 * are parameters, already formatted as `%Y%m%d` and `%H%M%S`.
 */
module MainImage {
  import opened Wrappers
  import opened DataSets
  import opened Uids
  import opened FileFormat
  import opened Association

  /** An image after `convert("RGB")`: its height, its width and its row-major RGB bytes. */
  datatype RgbImage = RgbImage(height: nat, width: nat, pixels: seq<byte>)

  /** A clock reading, formatted as a DICOM date and a DICOM time. */
  datatype Clock = Clock(date: string, time: string)

  // ---------------------------------------------------------------------------
  // Pixel data padding
  // ---------------------------------------------------------------------------

  /**
   * The pixel bytes as stored: a value of odd length gets one zero byte
   * appended, so that the element has the even length section 7.1.1 of DICOM
   * PS3.5 demands of every value field.
   */
  function PadEven(pixels: seq<byte>): (r: seq<byte>)
    ensures |r| % 2 == 0
    ensures |r| == |pixels| + |pixels| % 2
    ensures r[..|pixels|] == pixels
    ensures forall k | |pixels| <= k < |r| :: r[k] == 0
  {
    if |pixels| % 2 != 0 then pixels + [0] else pixels
  }

  /** Padding changes the bytes exactly when their length is odd. */
  lemma PadEvenChangesIffOdd(pixels: seq<byte>)
    ensures PadEven(pixels) == pixels <==> |pixels| % 2 == 0
  {
    if |pixels| % 2 != 0 {
      assert |PadEven(pixels)| != |pixels|;
    }
  }

  /** Padding twice is padding once. */
  lemma PadEvenIdempotent(pixels: seq<byte>)
    ensures PadEven(PadEven(pixels)) == PadEven(pixels)
  {
    PadEvenChangesIffOdd(PadEven(pixels));
  }

  /**
   * For the three bytes per pixel of an 8-bit RGB image, padding happens
   * exactly when both the height and the width are odd.
   */
  lemma RgbPaddingIffOddShape(image: RgbImage)
    requires |image.pixels| == 3 * (image.height * image.width)
    ensures PadEven(image.pixels) != image.pixels <==> image.height % 2 == 1 && image.width % 2 == 1
  {
    PadEvenChangesIffOdd(image.pixels);
    OddProduct(image.height, image.width);
    var n := image.height * image.width;
    assert |image.pixels| == 2 * n + n;
  }

  /** A product is odd exactly when both factors are. */
  lemma OddProduct(h: nat, w: nat)
    ensures (h * w) % 2 == 1 <==> h % 2 == 1 && w % 2 == 1
  {
    var a, b := h / 2, w / 2;
    if h % 2 == 0 {
      assert h * w == 2 * (a * w);
    } else if w % 2 == 0 {
      assert h * w == 2 * (h * b);
    } else {
      assert h * w == (2 * a + 1) * (2 * b + 1) == 2 * (2 * a * b + a + b) + 1;
    }
  }

  // ---------------------------------------------------------------------------
  // create_dicom_from_image
  // ---------------------------------------------------------------------------

  /**
   * Patient, study and instance identification. The generator's calls are, in
   * order, the media-storage instance UID, the implementation class UID, the
   * study instance UID and the series instance UID.
   */
  function ImageIdentity(patientName: string, patientId: string, gen: UidGen): DataSet {
    var ds := Put(Empty, PatientName, Str(patientName));
    var ds := Put(ds, PatientID, Str(patientId));
    var ds := Put(ds, StudyInstanceUID, Str(gen.At(2)));
    var ds := Put(ds, SeriesInstanceUID, Str(gen.At(3)));
    var ds := Put(ds, SOPInstanceUID, Str(gen.At(0)));
    var ds := Put(ds, Modality, Str("OT"));
    var ds := Put(ds, SeriesNumber, Num(1));
    var ds := Put(ds, InstanceNumber, Num(1));
    Put(ds, SOPClassUID, Str(SecondaryCaptureSopClass))
  }

  /** The image pixel module: 8-bit interleaved RGB of the image's shape, and the padded bytes. */
  function ImagePixels(ds: DataSet, image: RgbImage): DataSet {
    var ds := Put(ds, SamplesPerPixel, Num(3));
    var ds := Put(ds, PlanarConfiguration, Num(0));
    var ds := Put(ds, PhotometricInterpretation, Str("RGB"));
    var ds := Put(ds, Rows, Num(image.height));
    var ds := Put(ds, Columns, Num(image.width));
    var ds := Put(ds, BitsAllocated, Num(8));
    var ds := Put(ds, BitsStored, Num(8));
    var ds := Put(ds, HighBit, Num(7));
    var ds := Put(ds, PixelRepresentation, Num(0));
    Put(ds, PixelData, Bytes(PadEven(image.pixels)))
  }

  /** Study and content date and time, all from the one clock reading `dt`. */
  function ImageDates(ds: DataSet, dt: Clock): DataSet {
    var ds := Put(ds, StudyDate, Str(dt.date));
    var ds := Put(ds, StudyTime, Str(dt.time));
    var ds := Put(ds, ContentDate, Str(dt.date));
    Put(ds, ContentTime, Str(dt.time))
  }

  /** The nine tags `ImageIdentity` sets. */
  predicate IdentityTag(t: Tag) {
    t == PatientName || t == PatientID || t == StudyInstanceUID || t == SeriesInstanceUID ||
    t == SOPInstanceUID || t == Modality || t == SeriesNumber || t == InstanceNumber || t == SOPClassUID
  }

  /** The ten tags `ImagePixels` sets. */
  predicate PixelTag(t: Tag) {
    t == SamplesPerPixel || t == PlanarConfiguration || t == PhotometricInterpretation ||
    t == Rows || t == Columns || t == BitsAllocated || t == BitsStored || t == HighBit ||
    t == PixelRepresentation || t == PixelData
  }

  /** The four tags `ImageDates` sets. */
  predicate DateTag(t: Tag) {
    t == StudyDate || t == StudyTime || t == ContentDate || t == ContentTime
  }

  /** `create_dicom_from_image`, with the defaults of its patient name and ID. */
  function CreateDicomFromImage(image: RgbImage, gen: UidGen, dt: Clock,
                                patientName: string := "Anonymous", patientId: string := "123456"): FileDataSet
  {
    var meta := FileMeta(SecondaryCaptureSopClass, gen.At(0), ExplicitVRLittleEndian, Some(gen.At(1)));
    var body := ImageDates(ImagePixels(ImageIdentity(patientName, patientId, gen), image), dt);
    FileDataSet(ZeroPreamble, meta, body, true, false)
  }

  /** `ImageIdentity` holds exactly its nine elements, with the given patient and the drawn UIDs. */
  lemma ImageIdentityGet(patientName: string, patientId: string, gen: UidGen)
    ensures var ds := ImageIdentity(patientName, patientId, gen);
      && Get(ds, PatientName) == Some(Str(patientName))
      && Get(ds, PatientID) == Some(Str(patientId))
      && Get(ds, StudyInstanceUID) == Some(Str(gen.At(2)))
      && Get(ds, SeriesInstanceUID) == Some(Str(gen.At(3)))
      && Get(ds, SOPInstanceUID) == Some(Str(gen.At(0)))
      && Get(ds, Modality) == Some(Str("OT"))
      && Get(ds, SeriesNumber) == Some(Num(1))
      && Get(ds, InstanceNumber) == Some(Num(1))
      && Get(ds, SOPClassUID) == Some(Str(SecondaryCaptureSopClass))
  {
  }

  /** `ImagePixels` sets its ten elements. */
  lemma ImagePixelsGet(ds: DataSet, image: RgbImage)
    ensures Get(ImagePixels(ds, image), SamplesPerPixel) == Some(Num(3))
    ensures Get(ImagePixels(ds, image), PlanarConfiguration) == Some(Num(0))
    ensures Get(ImagePixels(ds, image), PhotometricInterpretation) == Some(Str("RGB"))
    ensures Get(ImagePixels(ds, image), Rows) == Some(Num(image.height))
    ensures Get(ImagePixels(ds, image), Columns) == Some(Num(image.width))
    ensures Get(ImagePixels(ds, image), BitsAllocated) == Some(Num(8))
    ensures Get(ImagePixels(ds, image), BitsStored) == Some(Num(8))
    ensures Get(ImagePixels(ds, image), HighBit) == Some(Num(7))
    ensures Get(ImagePixels(ds, image), PixelRepresentation) == Some(Num(0))
    ensures Get(ImagePixels(ds, image), PixelData) == Some(Bytes(PadEven(image.pixels)))
  {
  }

  /** `ImagePixels` leaves every tag but its own alone. */
  lemma ImagePixelsKeeps(ds: DataSet, image: RgbImage, t: Tag)
    requires !PixelTag(t)
    ensures Get(ImagePixels(ds, image), t) == Get(ds, t)
  {
  }

  /** `ImageDates` sets its four elements. */
  lemma ImageDatesGet(ds: DataSet, dt: Clock)
    ensures Get(ImageDates(ds, dt), StudyDate) == Some(Str(dt.date))
    ensures Get(ImageDates(ds, dt), ContentDate) == Some(Str(dt.date))
    ensures Get(ImageDates(ds, dt), StudyTime) == Some(Str(dt.time))
    ensures Get(ImageDates(ds, dt), ContentTime) == Some(Str(dt.time))
  {
  }

  /** `ImageDates` leaves every tag but its own alone. */
  lemma ImageDatesKeeps(ds: DataSet, dt: Clock, t: Tag)
    requires !DateTag(t)
    ensures Get(ImageDates(ds, dt), t) == Get(ds, t)
  {
  }

  /**
   * The file framing: 128 zero bytes, explicit VR little endian, the Secondary
   * Capture SOP class, the first UID as media-storage instance and the second as
   * implementation class.
   */
  lemma ImageFraming(image: RgbImage, gen: UidGen, dt: Clock, patientName: string, patientId: string)
    ensures var f := CreateDicomFromImage(image, gen, dt, patientName, patientId);
      && ZeroFilledPreamble(f)
      && ExplicitLittleEndian(f)
      && f.meta.mediaStorageSopClassUid == SecondaryCaptureSopClass
      && f.meta.mediaStorageSopInstanceUid == gen.At(0)
      && f.meta.implementationClassUid == Some(gen.At(1))
  {
  }

  /** The body's SOP class and instance UIDs are those of the meta information. */
  lemma ImageMetaCopied(image: RgbImage, gen: UidGen, dt: Clock, patientName: string, patientId: string)
    ensures MetaCopiedIntoBody(CreateDicomFromImage(image, gen, dt, patientName, patientId))
  {
    var id := ImageIdentity(patientName, patientId, gen);
    ImageIdentityGet(patientName, patientId, gen);
    KeepsAllIdentity(id, image, dt);
  }

  /** The patient name and ID are the ones given. */
  lemma ImagePatient(image: RgbImage, gen: UidGen, dt: Clock, patientName: string, patientId: string)
    ensures var b := CreateDicomFromImage(image, gen, dt, patientName, patientId).body;
      && Get(b, PatientName) == Some(Str(patientName))
      && Get(b, PatientID) == Some(Str(patientId))
  {
    var id := ImageIdentity(patientName, patientId, gen);
    ImageIdentityGet(patientName, patientId, gen);
    KeepsAllIdentity(id, image, dt);
  }

  /** The study and series instance UIDs are the third and fourth UIDs drawn. */
  lemma ImageStudySeries(image: RgbImage, gen: UidGen, dt: Clock, patientName: string, patientId: string)
    ensures var b := CreateDicomFromImage(image, gen, dt, patientName, patientId).body;
      && Get(b, StudyInstanceUID) == Some(Str(gen.At(2)))
      && Get(b, SeriesInstanceUID) == Some(Str(gen.At(3)))
  {
    var id := ImageIdentity(patientName, patientId, gen);
    ImageIdentityGet(patientName, patientId, gen);
    KeepsAllIdentity(id, image, dt);
  }

  /** Modality OT ("other"), series number 1 and instance number 1. */
  lemma ImageNumbering(image: RgbImage, gen: UidGen, dt: Clock, patientName: string, patientId: string)
    ensures var b := CreateDicomFromImage(image, gen, dt, patientName, patientId).body;
      && Get(b, Modality) == Some(Str("OT"))
      && Get(b, SeriesNumber) == Some(Num(1))
      && Get(b, InstanceNumber) == Some(Num(1))
  {
    var id := ImageIdentity(patientName, patientId, gen);
    ImageIdentityGet(patientName, patientId, gen);
    KeepsAllIdentity(id, image, dt);
  }

  /** The three modules set disjoint tags. */
  lemma IdentityApart(t: Tag)
    requires IdentityTag(t)
    ensures !PixelTag(t) && !DateTag(t)
  {
  }

  /** The pixel and date modules leave an identification element as it was. */
  lemma KeepsIdentity(id: DataSet, image: RgbImage, dt: Clock, t: Tag)
    requires IdentityTag(t)
    ensures Get(ImageDates(ImagePixels(id, image), dt), t) == Get(id, t)
  {
    IdentityApart(t);
    ImagePixelsKeeps(id, image, t);
    ImageDatesKeeps(ImagePixels(id, image), dt, t);
  }

  /** The pixel and date modules leave the nine identification elements as they were. */
  lemma KeepsAllIdentity(id: DataSet, image: RgbImage, dt: Clock)
    ensures var b := ImageDates(ImagePixels(id, image), dt);
      && Get(b, PatientName) == Get(id, PatientName)
      && Get(b, PatientID) == Get(id, PatientID)
      && Get(b, StudyInstanceUID) == Get(id, StudyInstanceUID)
      && Get(b, SeriesInstanceUID) == Get(id, SeriesInstanceUID)
      && Get(b, SOPInstanceUID) == Get(id, SOPInstanceUID)
      && Get(b, Modality) == Get(id, Modality)
      && Get(b, SeriesNumber) == Get(id, SeriesNumber)
      && Get(b, InstanceNumber) == Get(id, InstanceNumber)
      && Get(b, SOPClassUID) == Get(id, SOPClassUID)
  {
    KeepsIdentity(id, image, dt, PatientName);
    KeepsIdentity(id, image, dt, PatientID);
    KeepsIdentity(id, image, dt, StudyInstanceUID);
    KeepsIdentity(id, image, dt, SeriesInstanceUID);
    KeepsIdentity(id, image, dt, SOPInstanceUID);
    KeepsIdentity(id, image, dt, Modality);
    KeepsIdentity(id, image, dt, SeriesNumber);
    KeepsIdentity(id, image, dt, InstanceNumber);
    KeepsIdentity(id, image, dt, SOPClassUID);
  }

  /** The date module leaves the pixel elements as `ImagePixels` set them. */
  lemma KeepsPixels(p: DataSet, dt: Clock)
    ensures forall t | PixelTag(t) :: Get(ImageDates(p, dt), t) == Get(p, t)
  {
    forall t | PixelTag(t)
      ensures Get(ImageDates(p, dt), t) == Get(p, t)
    {
      ImageDatesKeeps(p, dt, t);
    }
  }

  /**
   * The pixel format: three samples per pixel, interleaved, RGB, 8 bits
   * allocated and stored with high bit 7, unsigned.
   */
  lemma ImagePixelFormat(image: RgbImage, gen: UidGen, dt: Clock, patientName: string, patientId: string)
    ensures var b := CreateDicomFromImage(image, gen, dt, patientName, patientId).body;
      && Get(b, SamplesPerPixel) == Some(Num(3))
      && Get(b, PlanarConfiguration) == Some(Num(0))
      && Get(b, PhotometricInterpretation) == Some(Str("RGB"))
      && Get(b, BitsAllocated) == Some(Num(8))
      && Get(b, BitsStored) == Some(Num(8))
      && Get(b, HighBit) == Some(Num(7))
      && Get(b, PixelRepresentation) == Some(Num(0))
  {
    var id := ImageIdentity(patientName, patientId, gen);
    ImagePixelsGet(id, image);
    KeepsPixels(ImagePixels(id, image), dt);
  }

  /** Rows and columns are the image's height and width, and the pixel data its padded bytes. */
  lemma ImageShapeAndPixels(image: RgbImage, gen: UidGen, dt: Clock, patientName: string, patientId: string)
    ensures var b := CreateDicomFromImage(image, gen, dt, patientName, patientId).body;
      && Get(b, Rows) == Some(Num(image.height))
      && Get(b, Columns) == Some(Num(image.width))
      && Get(b, PixelData) == Some(Bytes(PadEven(image.pixels)))
  {
    var id := ImageIdentity(patientName, patientId, gen);
    ImagePixelsGet(id, image);
    KeepsPixels(ImagePixels(id, image), dt);
  }

  /** Study and content date and time are the one clock reading. */
  lemma ImageDateContents(image: RgbImage, gen: UidGen, dt: Clock, patientName: string, patientId: string)
    ensures var b := CreateDicomFromImage(image, gen, dt, patientName, patientId).body;
      && Get(b, StudyDate) == Get(b, ContentDate) == Some(Str(dt.date))
      && Get(b, StudyTime) == Get(b, ContentTime) == Some(Str(dt.time))
  {
    ImageDatesGet(ImagePixels(ImageIdentity(patientName, patientId, gen), image), dt);
  }

  /** The body holds exactly the identification, pixel and date elements. */
  lemma ImageTags(image: RgbImage, gen: UidGen, dt: Clock, patientName: string, patientId: string)
    ensures var b := CreateDicomFromImage(image, gen, dt, patientName, patientId).body;
      forall t :: t in Tags(b) <==> IdentityTag(t) || PixelTag(t) || DateTag(t)
  {
  }

  /**
   * With a generator that never repeats itself, the media-storage instance,
   * implementation class, study and series UIDs are four different values.
   */
  lemma ImageUidsDistinct(gen: UidGen)
    requires Fresh(gen)
    ensures |{gen.At(0), gen.At(1), gen.At(2), gen.At(3)}| == 4
  {
    assert gen.draw(gen.next) != gen.draw(gen.next + 1);
    assert gen.draw(gen.next) != gen.draw(gen.next + 2);
    assert gen.draw(gen.next) != gen.draw(gen.next + 3);
    assert gen.draw(gen.next + 1) != gen.draw(gen.next + 2);
    assert gen.draw(gen.next + 1) != gen.draw(gen.next + 3);
    assert gen.draw(gen.next + 2) != gen.draw(gen.next + 3);
  }

  // ---------------------------------------------------------------------------
  // upload_image_to_dicom_server
  // ---------------------------------------------------------------------------

  /** `upload_image_to_dicom_server`'s keyword arguments, with their defaults. */
  datatype UploadArgs = UploadArgs(
    patientName: string := "Anonymous",
    patientId: string := "123456",
    patientDob: string := "19700101",
    examDate: Option<string> := None,
    examTime: Option<string> := None,
    examiner: string := "Unknown",
    accession: string := "N/A",
    studyUdi: Option<string> := None)

  /** A missing argument (`is None`, so an empty string is kept) falls back to the clock. */
  function OrClock(arg: Option<string>, reading: string): string {
    match arg
    case Some(s) => s
    case None => reading
  }

  /**
   * The attributes the upload overwrites on the created file. `today` and `now`
   * are the clock readings used when no exam date or time is given.
   */
  function UploadOverrides(ds: DataSet, args: UploadArgs, today: string, now: string): DataSet {
    var examDate := OrClock(args.examDate, today);
    var examTime := OrClock(args.examTime, now);
    var ds := Put(ds, Modality, Str("DOC"));
    var ds := Put(ds, PatientBirthDate, Str(args.patientDob));
    var ds := Put(ds, StudyDescription, Str("Ultrasound"));
    var ds := Put(ds, Manufacturer, Str("Nirab"));
    var ds := Put(ds, StudyDate, Str(examDate));
    var ds := Put(ds, SeriesDate, Str(examDate));
    var ds := Put(ds, StudyTime, Str(examTime));
    var ds := Put(ds, SeriesTime, Str(examTime));
    var ds := Put(ds, OperatorsName, Str(args.examiner));
    Put(ds, AccessionNumber, Str(args.accession))
  }

  const OverrideTags: set<Tag> := {Modality, PatientBirthDate, StudyDescription, Manufacturer,
    StudyDate, SeriesDate, StudyTime, SeriesTime, OperatorsName, AccessionNumber}

  /** The file the upload stores: the created file with the overrides applied to its body. */
  function UploadedImage(image: RgbImage, args: UploadArgs, gen: UidGen, dt: Clock,
                         today: string, now: string): FileDataSet
  {
    var f := CreateDicomFromImage(image, gen, dt, args.patientName, args.patientId);
    f.(body := UploadOverrides(f.body, args, today, now))
  }

  /**
   * The overrides: modality DOC, the birth date, description "Ultrasound",
   * manufacturer "Nirab", the examiner and accession number, and the exam date
   * and time (the clock's when not given) as both study and series date and time.
   */
  lemma UploadOverridesGet(ds: DataSet, args: UploadArgs, today: string, now: string)
    ensures var u := UploadOverrides(ds, args, today, now);
      && Get(u, Modality) == Some(Str("DOC"))
      && Get(u, PatientBirthDate) == Some(Str(args.patientDob))
      && Get(u, StudyDescription) == Some(Str("Ultrasound"))
      && Get(u, Manufacturer) == Some(Str("Nirab"))
      && Get(u, OperatorsName) == Some(Str(args.examiner))
      && Get(u, AccessionNumber) == Some(Str(args.accession))
    ensures var u := UploadOverrides(ds, args, today, now);
      && Get(u, StudyDate) == Get(u, SeriesDate) == Some(Str(OrClock(args.examDate, today)))
      && Get(u, StudyTime) == Get(u, SeriesTime) == Some(Str(OrClock(args.examTime, now)))
    ensures forall t | t !in OverrideTags :: Get(UploadOverrides(ds, args, today, now), t) == Get(ds, t)
  {
  }

  /**
   * The uploaded file keeps the created file's framing and every element the
   * overrides do not name.
   */
  lemma UploadKeepsImage(image: RgbImage, args: UploadArgs, gen: UidGen, dt: Clock, today: string, now: string)
    ensures var c := CreateDicomFromImage(image, gen, dt, args.patientName, args.patientId);
      var u := UploadedImage(image, args, gen, dt, today, now);
      && u.preamble == c.preamble && u.meta == c.meta
      && u.littleEndian == c.littleEndian && u.implicitVr == c.implicitVr
      && (forall t | t !in OverrideTags :: Get(u.body, t) == Get(c.body, t))
  {
    var c := CreateDicomFromImage(image, gen, dt, args.patientName, args.patientId);
    UploadOverridesGet(c.body, args, today, now);
  }

  /** The overrides leave the SOP class and instance UIDs alone: a file that matched its meta information still does. */
  lemma OverridesKeepMetaCopied(f: FileDataSet, args: UploadArgs, today: string, now: string)
    requires MetaCopiedIntoBody(f)
    ensures MetaCopiedIntoBody(f.(body := UploadOverrides(f.body, args, today, now)))
  {
  }

  /** The uploaded file's SOP class and instance UIDs still match its meta information. */
  lemma UploadMetaCopied(image: RgbImage, args: UploadArgs, gen: UidGen, dt: Clock, today: string, now: string)
    ensures MetaCopiedIntoBody(UploadedImage(image, args, gen, dt, today, now))
  {
    ImageMetaCopied(image, gen, dt, args.patientName, args.patientId);
    OverridesKeepMetaCopied(CreateDicomFromImage(image, gen, dt, args.patientName, args.patientId), args, today, now);
  }

  /**
   * `upload_image_to_dicom_server`: build the file, open an association from
   * `localAe` to `remoteAe` proposing Secondary Capture storage, and, only when
   * it is established, send the file with C-STORE and release the association
   * whatever the store status was. It returns nothing; the requests it sent are
   * the model's result.
   */
  method UploadImageToDicomServer(peer: Peer, image: RgbImage, serverIp: string, serverPort: int,
                                  remoteAe: string, localAe: string, args: UploadArgs,
                                  gen: UidGen, dt: Clock, today: string, now: string)
    returns (trace: seq<Request>)
    ensures |trace| > 0 &&
      trace[0] == AssociateRq(localAe, serverIp, serverPort, Some(remoteAe), SecondaryCaptureSopClass)
    ensures peer.accepts ==>
      trace == [trace[0], StoreRq(UploadedImage(image, args, gen, dt, today, now)), ReleaseRq]
    ensures !peer.accepts ==> |trace| == 1
    ensures Releases(trace) == (if peer.accepts then 1 else 0)
  {
    var ds := UploadedImage(image, args, gen, dt, today, now);
    var assoc := new Association.Associate(peer, localAe, serverIp, serverPort, Some(remoteAe),
                                           SecondaryCaptureSopClass);
    if assoc.isEstablished {
      var status := assoc.SendCStore(ds);
      assoc.Release();
    }
    trace := assoc.sent;
  }
}
