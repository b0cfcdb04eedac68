/**
 * Well-known UIDs and the DICOM file framing of section 7.1 of PS3.10: a 128-byte
 * preamble, then the file meta information (media-storage SOP class and instance,
 * transfer syntax), then the dataset. The byte encoding itself is not modelled; a
 * file is the record of what pydicom's `FileDataset` is given before `save_as`.
 */
module FileFormat {
  import opened Wrappers
  import opened DataSets

  /** Verification SOP Class (PS3.4 Annex A). */
  const VerificationSopClass := "1.2.840.10008.1.1"
  /** Modality Worklist Information Model - FIND (PS3.4 Annex K). */
  const WorklistFindSopClass := "1.2.840.10008.5.1.4.31"
  /** Secondary Capture Image Storage. */
  const SecondaryCaptureSopClass := "1.2.840.10008.5.1.4.1.1.7"
  /** Explicit VR Little Endian transfer syntax. */
  const ExplicitVRLittleEndian := "1.2.840.10008.1.2.1"

  /** `b"\0" * n`. */
  function Zeros(n: nat): (z: seq<byte>)
    ensures |z| == n
    ensures forall i | 0 <= i < n :: z[i] == 0
  {
    if n == 0 then [] else [0] + Zeros(n - 1)
  }

  /** `b"\0" * 128`. */
  const ZeroPreamble: seq<byte> := Zeros(128)

  datatype FileMeta = FileMeta(
    mediaStorageSopClassUid: string,
    mediaStorageSopInstanceUid: string,
    transferSyntaxUid: string,
    implementationClassUid: Option<string>)

  /** A `FileDataset` with its preamble, meta information, body and encoding flags. */
  datatype FileDataSet = FileDataSet(
    preamble: seq<byte>,
    meta: FileMeta,
    body: DataSet,
    littleEndian: bool,
    implicitVr: bool)

  /** The PS3.10 preamble: exactly 128 bytes, all zero. */
  predicate ZeroFilledPreamble(f: FileDataSet) {
    |f.preamble| == 128 && forall i | 0 <= i < 128 :: f.preamble[i] == 0
  }

  /** Explicit VR little endian, both in the meta information and in the encoding flags. */
  predicate ExplicitLittleEndian(f: FileDataSet) {
    f.meta.transferSyntaxUid == ExplicitVRLittleEndian && f.littleEndian && !f.implicitVr
  }

  /** The body repeats the media-storage SOP class and instance UIDs of the meta information. */
  predicate MetaCopiedIntoBody(f: FileDataSet) {
    && Get(f.body, SOPClassUID) == Some(Str(f.meta.mediaStorageSopClassUid))
    && Get(f.body, SOPInstanceUID) == Some(Str(f.meta.mediaStorageSopInstanceUid))
  }
}
