/** The field policy of the plugin: for each kind of document, and each kind
    of nested item, the table of elements it overwrites and their placeholders,
    in the order the plugin writes them. */
module Policy {
  import opened DicomData
  import opened Overwrites

  const EpochDate := "19010101"
  const ZeroTime := "000000"

  // The common table, shared by the plan, the dose and the images.

  /** The identity rows, written before private elements are removed: the name
      only when the minted name is non-empty, the ID only when the minted ID is. */
  function IdentityRows(id: Identity): Rows {
    var idRows := if |id.patientid| > 0 then Row(PatientID, NewID, End) else End;
    if |id.name| > 0 then Row(PatientsName, NewName, Row(PatientName, NewName, idRows)) else idRows
  }

  /** The identity links, the creation and study dates, and the accession number. */
  const StudyRows: Rows :=
    Row(OtherPatientIDs, NewID,
    Row(OtherPatientNames, NewName,
    Row(InstanceCreationDate, Fixed(Str(EpochDate)),
    Row(InstanceCreationTime, Fixed(Str(ZeroTime)),
    Row(StudyDate, Fixed(Str(EpochDate)),
    Row(StudyTime, Fixed(Str(ZeroTime)),
    Row(AccessionNumber, Fixed(Str("")),
    End)))))))

  /** The equipment and the staff. */
  const StaffRows: Rows :=
    Row(Manufacturer, Fixed(Str("manufacturer")),
    Row(ReferringPhysiciansName, Fixed(Str("physician")),
    Row(StationName, Fixed(Str("station")),
    Row(NameofPhysiciansReadingStudy, Fixed(Str("physician")),
    Row(OperatorsName, Fixed(Str("operator")),
    Row(PhysiciansofRecord, Fixed(Str("physician")),
    Row(ManufacturersModelName, Fixed(Str("model")),
    End)))))))

  /** The patient's demographics. */
  const DemographicsRows: Rows :=
    Row(PatientsBirthDate, Fixed(Str("")),
    Row(PatientsSex, Fixed(Str("O")),
    Row(PatientsAge, Fixed(Str("000Y")),
    Row(PatientsWeight, Fixed(Num(0)),
    Row(PatientsSize, Fixed(Num(0)),
    Row(PatientsAddress, Fixed(Str("address")),
    Row(AdditionalPatientHistory, Fixed(Str("")),
    Row(EthnicGroup, Fixed(Str("ethnicity")),
    End))))))))

  /** The study number, the device, and the review. */
  const ReviewRows: Rows :=
    Row(StudyID, Fixed(Str("1")),
    Row(DeviceSerialNumber, Fixed(Str("0")),
    Row(SoftwareVersions, Fixed(Str("1.0")),
    Row(ReviewDate, Fixed(Str(EpochDate)),
    Row(ReviewTime, Fixed(Str(ZeroTime)),
    Row(ReviewerName, Fixed(Str("anonymous")),
    End))))))

  /** The whole common table, in the plugin's order. */
  function CommonRows(id: Identity): Rows {
    Then(Then(Then(Then(IdentityRows(id), StudyRows), StaffRows), DemographicsRows), ReviewRows)
  }

  // The tables of the other documents and items.

  /** The structure set's own elements. */
  const StructureSetRows: Rows :=
    Row(SeriesDescription, Fixed(Str("RT Structure Set")),
    Row(StructureSetDate, Fixed(Str(EpochDate)),
    Row(StructureSetTime, Fixed(Str(ZeroTime)),
    End)))

  /** Each item of RTROIObservations. */
  const RoiObservationRows: Rows :=
    Row(ROIInterpreter, Fixed(Str("anonymous")),
    End)

  /** The plan's own elements, after the common table. */
  const PlanRows: Rows :=
    Row(SeriesDescription, Fixed(Str("RT Plan")),
    Row(RTPlanName, Fixed(Str("plan")),
    Row(RTPlanDate, Fixed(Str(EpochDate)),
    Row(RTPlanTime, Fixed(Str(ZeroTime)),
    End))))

  /** Each item of ToleranceTables. */
  const ToleranceTableRows: Rows :=
    Row(ToleranceTableLabel, Fixed(Str("tolerance")),
    End)

  /** Each item of Beams. */
  const BeamRows: Rows :=
    Row(Manufacturer, Fixed(Str("manufacturer")),
    Row(InstitutionName, Fixed(Str("institution")),
    Row(InstitutionAddress, Fixed(Str("address")),
    Row(InstitutionalDepartmentName, Fixed(Str("department")),
    Row(ManufacturersModelName, Fixed(Str("model")),
    Row(TreatmentMachineName, Fixed(Str("txmachine")),
    End))))))

  /** Each item of TreatmentMachines. */
  const TreatmentMachineRows: Rows :=
    Row(Manufacturer, Fixed(Str("manufacturer")),
    Row(InstitutionName, Fixed(Str("vendor")),
    Row(InstitutionAddress, Fixed(Str("address")),
    Row(InstitutionalDepartmentName, Fixed(Str("department")),
    Row(ManufacturersModelName, Fixed(Str("model")),
    Row(DeviceSerialNumber, Fixed(Str("0")),
    Row(TreatmentMachineName, Fixed(Str("txmachine")),
    End)))))))

  /** Each item of Sources. */
  const SourceRows: Rows :=
    Row(SourceManufacturer, Fixed(Str("manufacturer")),
    Row(SourceIsotopeName, Fixed(Str("isotope")),
    End))

  /** The dose's own elements, after the common table. */
  const DoseRows: Rows :=
    Row(SeriesDescription, Fixed(Str("RT Dose")),
    End)

  /** An image's own elements, after the common table. */
  const ImageRows: Rows :=
    Row(SeriesDate, Fixed(Str(EpochDate)),
    Row(ContentDate, Fixed(Str(EpochDate)),
    Row(SeriesTime, Fixed(Str(ZeroTime)),
    Row(ContentTime, Fixed(Str(ZeroTime)),
    Row(InstitutionName, Fixed(Str("institution")),
    Row(InstitutionAddress, Fixed(Str("address")),
    Row(InstitutionalDepartmentName, Fixed(Str("department")),
    End)))))))

  // What each kind of document becomes.

  function StripIf(d: Dataset, privatetags: bool): Dataset {
    if privatetags then RemovePrivateTags(d) else d
  }

  /** The common policy: private elements removed (when asked), then the
      common table. */
  function CommonResult(d: Dataset, id: Identity, privatetags: bool): Dataset {
    Overwrite(StripIf(d, privatetags), CommonRows(id), id)
  }

  /** The structure set gets its own table and the ROI interpreter of each
      observation, and nothing of the common policy. */
  function StructureSetResult(d: Dataset, id: Identity): Dataset {
    OverwriteItems(Overwrite(d, StructureSetRows, id), RTROIObservations, RoiObservationRows, id)
  }

  function PlanResult(d: Dataset, id: Identity, privatetags: bool): Dataset {
    var own := Overwrite(CommonResult(d, id, privatetags), PlanRows, id);
    var tolerance := OverwriteItems(own, ToleranceTables, ToleranceTableRows, id);
    var beams := OverwriteItems(tolerance, Beams, BeamRows, id);
    var machines := OverwriteItems(beams, TreatmentMachines, TreatmentMachineRows, id);
    OverwriteItems(machines, Sources, SourceRows, id)
  }

  function DoseResult(d: Dataset, id: Identity, privatetags: bool): Dataset {
    Overwrite(CommonResult(d, id, privatetags), DoseRows, id)
  }

  function ImageResult(d: Dataset, id: Identity, privatetags: bool): Dataset {
    Overwrite(CommonResult(d, id, privatetags), ImageRows, id)
  }
}
