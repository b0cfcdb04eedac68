/**
 * The attribute dataset: an ordered collection of elements, each a tag with a
 * value, where a value is a string, a number, bytes, nothing (Python's `None`)
 * or a sequence of nested datasets.
 *
 * Assigning `ds.Keyword = value` on a pydicom dataset has two outcomes. A keyword
 * of the DICOM data dictionary creates or overwrites the element with that tag.
 * Any other name becomes an ordinary Python attribute of the object. It is not an
 * element: iterating the dataset, `len(ds)` and writing the file all ignore it.
 * `Put` models the first case and `PutAttr` the second.
 */
module DataSets {
  import opened Wrappers

  type byte = x: int | 0 <= x < 256

  /** Value representations of the attributes used by the core. */
  datatype VR = AE | CS | DA | DS | IS | LO | OB | PN | SH | SQ | TM | UI | US | UN

  /**
   * The attributes the core reads or writes, named by their data-dictionary
   * keyword.
   */
  datatype Tag =
    | SpecificCharacterSet | QueryRetrieveLevel
    | PatientName | PatientID | PatientBirthDate | PatientSex | PatientSize | PatientWeight
    | AccessionNumber | ReferringPhysicianName | MedicalAlerts | ContrastAllergies
    | RequestedProcedureID | RequestedProcedureDescription | StudyInstanceUID
    | ScheduledProcedureStepSequence | ScheduledStationAETitle
    | ScheduledProcedureStepStartDate | ScheduledProcedureStepStartTime | Modality
    | ScheduledPerformingPhysicianName | ScheduledProcedureStepDescription
    | ScheduledProcedureStepID | ScheduledStationName
    | SOPClassUID | SOPInstanceUID | SeriesInstanceUID | SeriesNumber | InstanceNumber
    | SamplesPerPixel | PlanarConfiguration | PhotometricInterpretation | Rows | Columns
    | BitsAllocated | BitsStored | HighBit | PixelRepresentation | PixelData
    | StudyDate | StudyTime | SeriesDate | SeriesTime | ContentDate | ContentTime
    | StudyDescription | Manufacturer | OperatorsName
  {
    /** The element's descriptive name (pydicom's `elem.name`). */
    function Name(): string {
      match this
      case SpecificCharacterSet => "Specific Character Set"
      case QueryRetrieveLevel => "Query/Retrieve Level"
      case PatientName => "Patient's Name"
      case PatientID => "Patient ID"
      case PatientBirthDate => "Patient's Birth Date"
      case PatientSex => "Patient's Sex"
      case PatientSize => "Patient's Size"
      case PatientWeight => "Patient's Weight"
      case AccessionNumber => "Accession Number"
      case ReferringPhysicianName => "Referring Physician's Name"
      case MedicalAlerts => "Medical Alerts"
      case ContrastAllergies => "Contrast Allergies"
      case RequestedProcedureID => "Requested Procedure ID"
      case RequestedProcedureDescription => "Requested Procedure Description"
      case StudyInstanceUID => "Study Instance UID"
      case ScheduledProcedureStepSequence => "Scheduled Procedure Step Sequence"
      case ScheduledStationAETitle => "Scheduled Station AE Title"
      case ScheduledProcedureStepStartDate => "Scheduled Procedure Step Start Date"
      case ScheduledProcedureStepStartTime => "Scheduled Procedure Step Start Time"
      case Modality => "Modality"
      case ScheduledPerformingPhysicianName => "Scheduled Performing Physician's Name"
      case ScheduledProcedureStepDescription => "Scheduled Procedure Step Description"
      case ScheduledProcedureStepID => "Scheduled Procedure Step ID"
      case ScheduledStationName => "Scheduled Station Name"
      case SOPClassUID => "SOP Class UID"
      case SOPInstanceUID => "SOP Instance UID"
      case SeriesInstanceUID => "Series Instance UID"
      case SeriesNumber => "Series Number"
      case InstanceNumber => "Instance Number"
      case SamplesPerPixel => "Samples per Pixel"
      case PlanarConfiguration => "Planar Configuration"
      case PhotometricInterpretation => "Photometric Interpretation"
      case Rows => "Rows"
      case Columns => "Columns"
      case BitsAllocated => "Bits Allocated"
      case BitsStored => "Bits Stored"
      case HighBit => "High Bit"
      case PixelRepresentation => "Pixel Representation"
      case PixelData => "Pixel Data"
      case StudyDate => "Study Date"
      case StudyTime => "Study Time"
      case SeriesDate => "Series Date"
      case SeriesTime => "Series Time"
      case ContentDate => "Content Date"
      case ContentTime => "Content Time"
      case StudyDescription => "Study Description"
      case Manufacturer => "Manufacturer"
      case OperatorsName => "Operators' Name"
    }

    /** The value representation the data dictionary gives the attribute. */
    function Vr(): VR {
      match this
      case SpecificCharacterSet | QueryRetrieveLevel | PatientSex | Modality
        | PhotometricInterpretation => CS
      case PatientName | ReferringPhysicianName | ScheduledPerformingPhysicianName
        | OperatorsName => PN
      case PatientID | MedicalAlerts | ContrastAllergies | RequestedProcedureDescription
        | ScheduledProcedureStepDescription | StudyDescription | Manufacturer => LO
      case PatientBirthDate | ScheduledProcedureStepStartDate | StudyDate | SeriesDate
        | ContentDate => DA
      case ScheduledProcedureStepStartTime | StudyTime | SeriesTime | ContentTime => TM
      case PatientSize | PatientWeight => DS
      case AccessionNumber | RequestedProcedureID | ScheduledProcedureStepID
        | ScheduledStationName => SH
      case StudyInstanceUID | SOPClassUID | SOPInstanceUID | SeriesInstanceUID => UI
      case ScheduledProcedureStepSequence => SQ
      case ScheduledStationAETitle => AE
      case SeriesNumber | InstanceNumber => IS
      case SamplesPerPixel | PlanarConfiguration | Rows | Columns | BitsAllocated
        | BitsStored | HighBit | PixelRepresentation => US
      case PixelData => OB
    }
  }

  datatype Value =
    | Str(s: string)
    | Num(n: int)
    | Bytes(bytes: seq<byte>)
    | NoValue
    | Items(items: seq<DataSet>)

  /**
   * `elements` maps each tag present to its value, as pydicom's `Dataset` is a
   * dictionary keyed by tag; `attrs` are the plain Python attributes that
   * assignments of non-dictionary names created.
   */
  datatype DataSet = DataSet(elements: map<Tag, Value>, attrs: map<string, Value>)

  /** A fresh `Dataset()`. */
  const Empty := DataSet(map[], map[])

  /** The tags present in a dataset. */
  function Tags(ds: DataSet): set<Tag> {
    ds.elements.Keys
  }

  predicate Has(ds: DataSet, t: Tag) {
    t in ds.elements
  }

  /** `ds.get(tag)`: the value, or `None` when the tag is absent. */
  function Get(ds: DataSet, t: Tag): (r: Option<Value>)
    ensures r.Some? <==> Has(ds, t)
  {
    if t in ds.elements then Some(ds.elements[t]) else None
  }

  /**
   * `ds.Keyword = v` for a dictionary keyword: overwrite the element if the tag
   * is present, add it otherwise. Nothing else changes.
   */
  function Put(ds: DataSet, t: Tag, v: Value): (r: DataSet)
  {
    DataSet(ds.elements[t := v], ds.attrs)
  }

  /** After `Put`, the tag holds the new value and every other tag and attribute is as before. */
  lemma PutGet(ds: DataSet, t: Tag, v: Value)
    ensures Get(Put(ds, t, v), t) == Some(v)
    ensures forall u | u != t :: Get(Put(ds, t, v), u) == Get(ds, u)
    ensures Tags(Put(ds, t, v)) == Tags(ds) + {t}
    ensures Put(ds, t, v).attrs == ds.attrs
  {
  }

  /** `ds.name = v` for a name outside the data dictionary: a plain attribute. */
  function PutAttr(ds: DataSet, name: string, v: Value): (r: DataSet)
    ensures r.elements == ds.elements
    ensures r.attrs == ds.attrs[name := v]
  {
    DataSet(ds.elements, ds.attrs[name := v])
  }

  /** Element assigned only when the Python condition `if x:` on a string holds. */
  function PutIfNonEmpty(ds: DataSet, t: Tag, s: string): DataSet
  {
    if s != "" then Put(ds, t, Str(s)) else ds
  }

  /** Python truthiness of a dataset: it holds at least one element. */
  predicate Truthy(ds: DataSet) {
    |ds.elements| > 0
  }

  /** The items of a sequence element, or `[]` when the tag is absent or is not a sequence. */
  function ItemsOf(ds: DataSet, t: Tag): seq<DataSet> {
    match Get(ds, t)
    case Some(Items(items)) => items
    case _ => []
  }

  /**
   * pydicom's type discipline: an SQ element holds a sequence (or nothing) and no
   * other element holds a sequence; nested items obey the same rule.
   */
  predicate WellFormed(ds: DataSet)
    decreases ds
  {
    forall t | t in ds.elements :: ValueWellFormed(t, ds.elements[t])
  }

  predicate ValueWellFormed(t: Tag, v: Value)
    decreases v
  {
    match v
    case Items(items) => t.Vr() == SQ && forall k | 0 <= k < |items| :: WellFormed(items[k])
    case NoValue => true
    case _ => t.Vr() != SQ
  }

  /** Putting a well-formed value keeps a dataset well-formed. */
  lemma PutWellFormed(ds: DataSet, t: Tag, v: Value)
    requires WellFormed(ds)
    requires ValueWellFormed(t, v)
    ensures WellFormed(Put(ds, t, v))
  {
  }
}
