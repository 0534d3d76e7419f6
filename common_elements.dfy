/** The common elements every plan, dose and image receives: the plugin's
    `updateCommonElements`, proved to perform the common policy. */
module CommonElements {
  import opened DicomData
  import opened Overwrites
  import opened Policy

  // Each write below is followed by a ghost assertion that keeps track of the
  // rows of the table still to be written (`rest`): `Apply(r, rest, id)` is
  // always what the whole run of `rows` makes of `data`.

  /** The common-element policy, written in the plugin's order: the identity
      elements (each only when its new value is non-empty), then the removal of
      private elements, then the rest of the common table. */
  method UpdateCommonElements(data: Dataset, name: string, patientid: string, privatetags: bool)
    returns (r: Dataset)
    ensures r == CommonResult(data, Identity(name, patientid), privatetags)
  {
    ghost var id := Identity(name, patientid);
    ghost var rows := IdentityRows(id);
    ghost var rest := rows;
    r := data;
    if |name| > 0 {
      r, rest := UpdateElement(r, PatientsName, Str(name)), rest.rest;
      assert Apply(r, rest, id) == Apply(data, rows, id);
      r, rest := UpdateElement(r, PatientName, Str(name)), rest.rest;
      assert Apply(r, rest, id) == Apply(data, rows, id);
    }
    if |patientid| > 0 {
      r, rest := UpdateElement(r, PatientID, Str(patientid)), rest.rest;
      assert Apply(r, rest, id) == Apply(data, rows, id);
    }
    ghost var identified := r;
    if privatetags {
      r := RemovePrivateTags(r);
    }
    ghost var stripped := r;
    var study := UpdateStudyElements(r, name, patientid);
    var staff := UpdateStaffElements(study, id);
    var demographics := UpdateDemographics(staff, id);
    r := UpdateReviewElements(demographics, id);
    CommonInOrder(data, id, privatetags, identified, stripped, study, staff, demographics, r);
  }

  /** The identity links, the creation and study dates and the accession number. */
  method UpdateStudyElements(data: Dataset, name: string, patientid: string) returns (r: Dataset)
    ensures r == Apply(data, StudyRows, Identity(name, patientid))
  {
    ghost var id := Identity(name, patientid);
    ghost var rows := StudyRows;
    ghost var rest := rows;
    r := data;
    r, rest := UpdateElement(r, OtherPatientIDs, Str(patientid)), rest.rest;
    assert Apply(r, rest, id) == Apply(data, rows, id);
    r, rest := UpdateElement(r, OtherPatientNames, Str(name)), rest.rest;
    assert Apply(r, rest, id) == Apply(data, rows, id);
    r, rest := UpdateElement(r, InstanceCreationDate, Str(EpochDate)), rest.rest;
    assert Apply(r, rest, id) == Apply(data, rows, id);
    r, rest := UpdateElement(r, InstanceCreationTime, Str(ZeroTime)), rest.rest;
    assert Apply(r, rest, id) == Apply(data, rows, id);
    r, rest := UpdateElement(r, StudyDate, Str(EpochDate)), rest.rest;
    assert Apply(r, rest, id) == Apply(data, rows, id);
    r, rest := UpdateElement(r, StudyTime, Str(ZeroTime)), rest.rest;
    assert Apply(r, rest, id) == Apply(data, rows, id);
    r, rest := UpdateElement(r, AccessionNumber, Str("")), rest.rest;
    assert Apply(r, rest, id) == Apply(data, rows, id);
  }

  /** The equipment and the staff. */
  method UpdateStaffElements(data: Dataset, ghost id: Identity) returns (r: Dataset)
    ensures r == Apply(data, StaffRows, id)
  {
    ghost var rows := StaffRows;
    ghost var rest := rows;
    r := data;
    r, rest := UpdateElement(r, Manufacturer, Str("manufacturer")), rest.rest;
    assert Apply(r, rest, id) == Apply(data, rows, id);
    r, rest := UpdateElement(r, ReferringPhysiciansName, Str("physician")), rest.rest;
    assert Apply(r, rest, id) == Apply(data, rows, id);
    r, rest := UpdateElement(r, StationName, Str("station")), rest.rest;
    assert Apply(r, rest, id) == Apply(data, rows, id);
    r, rest := UpdateElement(r, NameofPhysiciansReadingStudy, Str("physician")), rest.rest;
    assert Apply(r, rest, id) == Apply(data, rows, id);
    r, rest := UpdateElement(r, OperatorsName, Str("operator")), rest.rest;
    assert Apply(r, rest, id) == Apply(data, rows, id);
    r, rest := UpdateElement(r, PhysiciansofRecord, Str("physician")), rest.rest;
    assert Apply(r, rest, id) == Apply(data, rows, id);
    r, rest := UpdateElement(r, ManufacturersModelName, Str("model")), rest.rest;
    assert Apply(r, rest, id) == Apply(data, rows, id);
  }

  /** The patient's demographics. */
  method UpdateDemographics(data: Dataset, ghost id: Identity) returns (r: Dataset)
    ensures r == Apply(data, DemographicsRows, id)
  {
    ghost var rows := DemographicsRows;
    ghost var rest := rows;
    r := data;
    r, rest := UpdateElement(r, PatientsBirthDate, Str("")), rest.rest;
    assert Apply(r, rest, id) == Apply(data, rows, id);
    r, rest := UpdateElement(r, PatientsSex, Str("O")), rest.rest;
    assert Apply(r, rest, id) == Apply(data, rows, id);
    r, rest := UpdateElement(r, PatientsAge, Str("000Y")), rest.rest;
    assert Apply(r, rest, id) == Apply(data, rows, id);
    r, rest := UpdateElement(r, PatientsWeight, Num(0)), rest.rest;
    assert Apply(r, rest, id) == Apply(data, rows, id);
    r, rest := UpdateElement(r, PatientsSize, Num(0)), rest.rest;
    assert Apply(r, rest, id) == Apply(data, rows, id);
    r, rest := UpdateElement(r, PatientsAddress, Str("address")), rest.rest;
    assert Apply(r, rest, id) == Apply(data, rows, id);
    r, rest := UpdateElement(r, AdditionalPatientHistory, Str("")), rest.rest;
    assert Apply(r, rest, id) == Apply(data, rows, id);
    r, rest := UpdateElement(r, EthnicGroup, Str("ethnicity")), rest.rest;
    assert Apply(r, rest, id) == Apply(data, rows, id);
  }

  /** The study number, the device and the review. */
  method UpdateReviewElements(data: Dataset, ghost id: Identity) returns (r: Dataset)
    ensures r == Apply(data, ReviewRows, id)
  {
    ghost var rows := ReviewRows;
    ghost var rest := rows;
    r := data;
    r, rest := UpdateElement(r, StudyID, Str("1")), rest.rest;
    assert Apply(r, rest, id) == Apply(data, rows, id);
    r, rest := UpdateElement(r, DeviceSerialNumber, Str("0")), rest.rest;
    assert Apply(r, rest, id) == Apply(data, rows, id);
    r, rest := UpdateElement(r, SoftwareVersions, Str("1.0")), rest.rest;
    assert Apply(r, rest, id) == Apply(data, rows, id);
    r, rest := UpdateElement(r, ReviewDate, Str(EpochDate)), rest.rest;
    assert Apply(r, rest, id) == Apply(data, rows, id);
    r, rest := UpdateElement(r, ReviewTime, Str(ZeroTime)), rest.rest;
    assert Apply(r, rest, id) == Apply(data, rows, id);
    r, rest := UpdateElement(r, ReviewerName, Str("anonymous")), rest.rest;
    assert Apply(r, rest, id) == Apply(data, rows, id);
  }

  /** The plugin's order of common writes (identity, removal of private
      elements, the four runs of the rest) performs the common policy. */
  lemma CommonInOrder(data: Dataset, id: Identity, privatetags: bool,
                      identified: Dataset, stripped: Dataset, study: Dataset, staff: Dataset,
                      demographics: Dataset, r: Dataset)
    requires identified == Apply(data, IdentityRows(id), id)
    requires stripped == StripIf(identified, privatetags)
    requires study == Apply(stripped, StudyRows, id)
    requires staff == Apply(study, StaffRows, id)
    requires demographics == Apply(staff, DemographicsRows, id)
    requires r == Apply(demographics, ReviewRows, id)
    ensures r == CommonResult(data, id, privatetags)
  {
    var base := StripIf(data, privatetags);
    ApplyIsOverwrite(data, IdentityRows(id), id);
    StripOverwrite(data, IdentityRows(id), id);
    var done := IdentityRows(id);
    ApplyIsOverwrite(stripped, StudyRows, id);
    OverwriteThen(base, done, StudyRows, id);
    done := Then(done, StudyRows);
    ApplyIsOverwrite(study, StaffRows, id);
    OverwriteThen(base, done, StaffRows, id);
    done := Then(done, StaffRows);
    ApplyIsOverwrite(staff, DemographicsRows, id);
    OverwriteThen(base, done, DemographicsRows, id);
    done := Then(done, DemographicsRows);
    ApplyIsOverwrite(demographics, ReviewRows, id);
    OverwriteThen(base, done, ReviewRows, id);
  }
}
