/** The document model: a DICOM data set as a finite map from element to value,
    with the two operations the anonymizer applies to it, the presence-checked
    overwrite and the removal of private elements. */
module DicomData {

  datatype Option<T> = None | Some(value: T)

  /** A data element tag, (group, element). The data set is keyed by tag. */
  datatype Tag = Tag(group: nat, element: nat)

  type Key = Tag

  // The elements the anonymizer names, by the keyword it uses for them and
  // the tag of that element in the DICOM data dictionary (DICOM PS3.6).
  // Several of these keywords (`PatientsName`, `PatientsSex`, `Beams`,
  // `TreatmentMachines` and others) are those of older releases of the DICOM
  // library, not of PS3.6: PS3.6 calls (0010,0010) `PatientName`. Both
  // spellings of the patient name are taken to resolve to (0010,0010).

  // patient, study and equipment elements (the common policy)
  const PatientsName: Key := Tag(0x0010, 0x0010)
  const PatientName: Key := Tag(0x0010, 0x0010)
  const PatientID: Key := Tag(0x0010, 0x0020)
  const OtherPatientIDs: Key := Tag(0x0010, 0x1000)
  const OtherPatientNames: Key := Tag(0x0010, 0x1001)
  const InstanceCreationDate: Key := Tag(0x0008, 0x0012)
  const InstanceCreationTime: Key := Tag(0x0008, 0x0013)
  const StudyDate: Key := Tag(0x0008, 0x0020)
  const StudyTime: Key := Tag(0x0008, 0x0030)
  const AccessionNumber: Key := Tag(0x0008, 0x0050)
  const Manufacturer: Key := Tag(0x0008, 0x0070)
  const ReferringPhysiciansName: Key := Tag(0x0008, 0x0090)
  const StationName: Key := Tag(0x0008, 0x1010)
  const NameofPhysiciansReadingStudy: Key := Tag(0x0008, 0x1060)
  const OperatorsName: Key := Tag(0x0008, 0x1070)
  const PhysiciansofRecord: Key := Tag(0x0008, 0x1048)
  const ManufacturersModelName: Key := Tag(0x0008, 0x1090)
  const PatientsBirthDate: Key := Tag(0x0010, 0x0030)
  const PatientsSex: Key := Tag(0x0010, 0x0040)
  const PatientsAge: Key := Tag(0x0010, 0x1010)
  const PatientsWeight: Key := Tag(0x0010, 0x1030)
  const PatientsSize: Key := Tag(0x0010, 0x1020)
  const PatientsAddress: Key := Tag(0x0010, 0x1040)
  const AdditionalPatientHistory: Key := Tag(0x0010, 0x21B0)
  const EthnicGroup: Key := Tag(0x0010, 0x2160)
  const StudyID: Key := Tag(0x0020, 0x0010)
  const DeviceSerialNumber: Key := Tag(0x0018, 0x1000)
  const SoftwareVersions: Key := Tag(0x0018, 0x1020)
  const ReviewDate: Key := Tag(0x300E, 0x0004)
  const ReviewTime: Key := Tag(0x300E, 0x0005)
  const ReviewerName: Key := Tag(0x300E, 0x0008)
  // structure set
  const SeriesDescription: Key := Tag(0x0008, 0x103E)
  const StructureSetDate: Key := Tag(0x3006, 0x0008)
  const StructureSetTime: Key := Tag(0x3006, 0x0009)
  const RTROIObservations: Key := Tag(0x3006, 0x0080)
  const ROIInterpreter: Key := Tag(0x3006, 0x00A6)
  // plan
  const RTPlanName: Key := Tag(0x300A, 0x0003)
  const RTPlanDate: Key := Tag(0x300A, 0x0006)
  const RTPlanTime: Key := Tag(0x300A, 0x0007)
  const ToleranceTables: Key := Tag(0x300A, 0x0040)
  const ToleranceTableLabel: Key := Tag(0x300A, 0x0043)
  const Beams: Key := Tag(0x300A, 0x00B0)
  const InstitutionName: Key := Tag(0x0008, 0x0080)
  const InstitutionAddress: Key := Tag(0x0008, 0x0081)
  const InstitutionalDepartmentName: Key := Tag(0x0008, 0x1040)
  const TreatmentMachineName: Key := Tag(0x300A, 0x00B2)
  const TreatmentMachines: Key := Tag(0x300A, 0x0206)
  const Sources: Key := Tag(0x300A, 0x0210)
  const SourceManufacturer: Key := Tag(0x300A, 0x0216)
  const SourceIsotopeName: Key := Tag(0x300A, 0x0226)
  // image
  const SeriesDate: Key := Tag(0x0008, 0x0021)
  const ContentDate: Key := Tag(0x0008, 0x0023)
  const SeriesTime: Key := Tag(0x0008, 0x0031)
  const ContentTime: Key := Tag(0x0008, 0x0033)
  const SOPClassUID: Key := Tag(0x0008, 0x0016)

  /** An element value: text, a number, or a sequence of nested items. */
  datatype Value = Str(s: string) | Num(n: int) | Items(items: seq<map<Key, Value>>)

  type Dataset = map<Key, Value>

  /** Private elements are those with an odd group number
      (section 7.8.1 of DICOM PS3.5). */
  predicate IsPrivate(k: Key) {
    k.group % 2 == 1
  }

  /** Writes `v` under `k` only when `k` is already present: the key set never
      changes and no element is ever introduced. */
  function UpdateElement(d: Dataset, k: Key, v: Value): (r: Dataset)
    ensures r.Keys == d.Keys
    ensures k in d ==> r[k] == v
  {
    if k in d then d[k := v] else d
  }

  /** Every element other than `k` keeps its value, and an absent `k` leaves
      the data set as it was. */
  lemma UpdateElementOthers(d: Dataset, k: Key, v: Value)
    ensures forall j :: j in d && j != k ==> UpdateElement(d, k, v)[j] == d[j]
    ensures k !in d ==> UpdateElement(d, k, v) == d
  {
  }

  /** The library's private-element filter: removes exactly the private keys
      and keeps every other element as it was. */
  function RemovePrivateTags(d: Dataset): (r: Dataset)
    ensures forall k :: k in r <==> k in d && !IsPrivate(k)
    ensures forall k :: k in r ==> r[k] == d[k]
  {
    map k | k in d && !IsPrivate(k) :: d[k]
  }

  lemma RemovePrivateTagsIdempotent(d: Dataset)
    ensures RemovePrivateTags(RemovePrivateTags(d)) == RemovePrivateTags(d)
  {
    var once := RemovePrivateTags(d);
    assert RemovePrivateTags(once).Keys == once.Keys;
  }
}
