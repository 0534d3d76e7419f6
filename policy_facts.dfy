/** What the policy does to the elements that identify a patient, to private
    elements, and to the equipment of a plan. */
module PolicyFacts {
  import opened DicomData
  import opened Overwrites
  import opened Policy

  // ---------------------------------------------------------------------------
  // Lookups in the common table.

  /** The placeholder the common table prescribes for `k`: the last of the five
      runs of rows that names it. */
  lemma CommonFillFor(id: Identity, k: Key)
    ensures FillFor(CommonRows(id), k)
         == Later(Later(Later(Later(FillFor(IdentityRows(id), k), FillFor(StudyRows, k)),
                                FillFor(StaffRows, k)), FillFor(DemographicsRows, k)), FillFor(ReviewRows, k))
  {
    var i := IdentityRows(id);
    FillForThen(i, StudyRows, k);
    FillForThen(Then(i, StudyRows), StaffRows, k);
    FillForThen(Then(Then(i, StudyRows), StaffRows), DemographicsRows, k);
    FillForThen(Then(Then(Then(i, StudyRows), StaffRows), DemographicsRows), ReviewRows, k);
  }

  /** None of the four fixed runs of the common table names the patient's name
      or ID. */
  lemma RunsMissIdentity()
    ensures FillFor(StudyRows, PatientName) == None && FillFor(StaffRows, PatientName) == None
    ensures FillFor(DemographicsRows, PatientName) == None && FillFor(ReviewRows, PatientName) == None
    ensures FillFor(StudyRows, PatientID) == None && FillFor(StaffRows, PatientID) == None
    ensures FillFor(DemographicsRows, PatientID) == None && FillFor(ReviewRows, PatientID) == None
  {
  }

  /** The common table names the patient's name only when the minted name is
      non-empty, and the patient ID only when the minted ID is. */
  lemma CommonFillForIdentity(id: Identity)
    ensures FillFor(CommonRows(id), PatientName) == if |id.name| > 0 then Some(NewName) else None
    ensures FillFor(CommonRows(id), PatientID) == if |id.patientid| > 0 then Some(NewID) else None
  {
    RunsMissIdentity();
    CommonFillFor(id, PatientName);
    CommonFillFor(id, PatientID);
  }

  /** Only the study run names the other-patient links. */
  lemma RunsMissLinks()
    ensures FillFor(StudyRows, OtherPatientIDs) == Some(NewID)
    ensures FillFor(StudyRows, OtherPatientNames) == Some(NewName)
    ensures FillFor(StaffRows, OtherPatientIDs) == None && FillFor(StaffRows, OtherPatientNames) == None
    ensures FillFor(DemographicsRows, OtherPatientIDs) == None && FillFor(DemographicsRows, OtherPatientNames) == None
    ensures FillFor(ReviewRows, OtherPatientIDs) == None && FillFor(ReviewRows, OtherPatientNames) == None
  {
  }

  /** Every row of the table names a public element. */
  predicate AllPublic(rows: Rows) {
    match rows
    case End => true
    case Row(k, _, rest) => !IsPrivate(k) && AllPublic(rest)
  }

  lemma {:induction false} AllPublicMissPrivate(rows: Rows, k: Key)
    requires AllPublic(rows) && IsPrivate(k)
    ensures FillFor(rows, k) == None
    decreases rows
  {
    match rows
    case End =>
    case Row(j, f, rest) =>
      AllPublicMissPrivate(rest, k);
  }

  lemma CommonRunsPublic(id: Identity)
    ensures AllPublic(IdentityRows(id))
    ensures AllPublic(StudyRows) && AllPublic(StaffRows)
    ensures AllPublic(DemographicsRows) && AllPublic(ReviewRows)
  {
  }

  /** The common table names no private element. */
  lemma CommonNamesNoPrivate(id: Identity, k: Key)
    requires IsPrivate(k)
    ensures FillFor(CommonRows(id), k) == None
  {
    CommonRunsPublic(id);
    AllPublicMissPrivate(IdentityRows(id), k);
    AllPublicMissPrivate(StudyRows, k);
    AllPublicMissPrivate(StaffRows, k);
    AllPublicMissPrivate(DemographicsRows, k);
    AllPublicMissPrivate(ReviewRows, k);
    CommonFillFor(id, k);
  }

  // ---------------------------------------------------------------------------
  // The common policy.

  /** The common policy never adds an element, and removes only the private
      ones, and those only when asked to. */
  lemma CommonKeys(d: Dataset, id: Identity, privatetags: bool)
    ensures CommonResult(d, id, privatetags).Keys <= d.Keys
    ensures forall k :: k in d && !(privatetags && IsPrivate(k)) ==> k in CommonResult(d, id, privatetags)
  {
  }

  /** With `privatetags`, no private element remains; without it, every
      private element is kept with its value. */
  lemma CommonPrivate(d: Dataset, id: Identity, privatetags: bool)
    ensures privatetags ==> forall k :: k in CommonResult(d, id, privatetags) ==> !IsPrivate(k)
    ensures !privatetags ==> forall k :: k in d && IsPrivate(k) ==>
              k in CommonResult(d, id, privatetags) && CommonResult(d, id, privatetags)[k] == d[k]
  {
    if !privatetags {
      forall k | k in d && IsPrivate(k)
        ensures CommonResult(d, id, privatetags)[k] == d[k]
      {
        CommonNamesNoPrivate(id, k);
      }
    }
  }

  /** The patient's name is replaced by the minted name exactly when that name
      is non-empty; otherwise it keeps its value. */
  lemma CommonPatientName(d: Dataset, id: Identity, privatetags: bool)
    requires PatientName in d
    ensures PatientName in CommonResult(d, id, privatetags)
    ensures |id.name| > 0 ==> CommonResult(d, id, privatetags)[PatientName] == Str(id.name)
    ensures |id.name| == 0 ==> CommonResult(d, id, privatetags)[PatientName] == d[PatientName]
  {
    CommonFillForIdentity(id);
  }

  /** The patient ID is replaced by the minted ID exactly when that ID is
      non-empty; otherwise it keeps its value. */
  lemma CommonPatientID(d: Dataset, id: Identity, privatetags: bool)
    requires PatientID in d
    ensures PatientID in CommonResult(d, id, privatetags)
    ensures |id.patientid| > 0 ==> CommonResult(d, id, privatetags)[PatientID] == Str(id.patientid)
    ensures |id.patientid| == 0 ==> CommonResult(d, id, privatetags)[PatientID] == d[PatientID]
  {
    CommonFillForIdentity(id);
  }

  /** The other-patient links are overwritten with the minted identity
      unconditionally, even when it is empty. */
  lemma CommonOtherPatientLinks(d: Dataset, id: Identity, privatetags: bool)
    ensures OtherPatientIDs in d ==> CommonResult(d, id, privatetags)[OtherPatientIDs] == Str(id.patientid)
    ensures OtherPatientNames in d ==> CommonResult(d, id, privatetags)[OtherPatientNames] == Str(id.name)
  {
    RunsMissLinks();
    CommonFillFor(id, OtherPatientIDs);
    CommonFillFor(id, OtherPatientNames);
  }

  /** A present public element for which the common table prescribes a
      fixed value holds that value afterwards. */
  lemma CommonFixed(d: Dataset, id: Identity, privatetags: bool, k: Key, v: Value)
    requires k in d && !IsPrivate(k)
    requires FillFor(CommonRows(id), k) == Some(Fixed(v))
    ensures k in CommonResult(d, id, privatetags) && CommonResult(d, id, privatetags)[k] == v
  {
  }

  /** The study run prescribes the creation and study dates and times and the
      accession number. */
  lemma StudyRunFills()
    ensures FillFor(StudyRows, InstanceCreationDate) == Some(Fixed(Str(EpochDate)))
    ensures FillFor(StudyRows, InstanceCreationTime) == Some(Fixed(Str(ZeroTime)))
    ensures FillFor(StudyRows, StudyDate) == Some(Fixed(Str(EpochDate)))
    ensures FillFor(StudyRows, StudyTime) == Some(Fixed(Str(ZeroTime)))
    ensures FillFor(StudyRows, AccessionNumber) == Some(Fixed(Str("")))
  {
  }

  /** The staff run names none of the study run's dates, times and accession number. */
  lemma StaffRunMissesStudy()
    ensures FillFor(StaffRows, InstanceCreationDate) == None
    ensures FillFor(StaffRows, InstanceCreationTime) == None
    ensures FillFor(StaffRows, StudyDate) == None
    ensures FillFor(StaffRows, StudyTime) == None
    ensures FillFor(StaffRows, AccessionNumber) == None
  {
  }

  /** The demographics run names none of the study run's dates, times and accession number. */
  lemma DemographicsRunMissesStudy()
    ensures FillFor(DemographicsRows, InstanceCreationDate) == None
    ensures FillFor(DemographicsRows, InstanceCreationTime) == None
    ensures FillFor(DemographicsRows, StudyDate) == None
    ensures FillFor(DemographicsRows, StudyTime) == None
    ensures FillFor(DemographicsRows, AccessionNumber) == None
  {
  }

  /** The review run names none of the study run's dates, times and accession number. */
  lemma ReviewRunMissesStudy()
    ensures FillFor(ReviewRows, InstanceCreationDate) == None
    ensures FillFor(ReviewRows, InstanceCreationTime) == None
    ensures FillFor(ReviewRows, StudyDate) == None
    ensures FillFor(ReviewRows, StudyTime) == None
    ensures FillFor(ReviewRows, AccessionNumber) == None
  {
  }

  /** The demographics run prescribes the birth date, sex, age, weight and size. */
  lemma DemographicsRunFills()
    ensures FillFor(DemographicsRows, PatientsBirthDate) == Some(Fixed(Str("")))
    ensures FillFor(DemographicsRows, PatientsSex) == Some(Fixed(Str("O")))
    ensures FillFor(DemographicsRows, PatientsAge) == Some(Fixed(Str("000Y")))
    ensures FillFor(DemographicsRows, PatientsWeight) == Some(Fixed(Num(0)))
    ensures FillFor(DemographicsRows, PatientsSize) == Some(Fixed(Num(0)))
  {
  }

  /** The review run names none of the demographics. */
  lemma ReviewRunMissesDemographics()
    ensures FillFor(ReviewRows, PatientsBirthDate) == None
    ensures FillFor(ReviewRows, PatientsSex) == None
    ensures FillFor(ReviewRows, PatientsAge) == None
    ensures FillFor(ReviewRows, PatientsWeight) == None
    ensures FillFor(ReviewRows, PatientsSize) == None
  {
  }

  /** The fixed placeholders of the study run: a present creation date and
      time, study date and time and accession number hold '19010101',
      '000000', '19010101', '000000' and ''. */
  lemma CommonStudyPlaceholders(d: Dataset, id: Identity, privatetags: bool)
    ensures InstanceCreationDate in d ==> CommonResult(d, id, privatetags)[InstanceCreationDate] == Str("19010101")
    ensures InstanceCreationTime in d ==> CommonResult(d, id, privatetags)[InstanceCreationTime] == Str("000000")
    ensures StudyDate in d ==> CommonResult(d, id, privatetags)[StudyDate] == Str("19010101")
    ensures StudyTime in d ==> CommonResult(d, id, privatetags)[StudyTime] == Str("000000")
    ensures AccessionNumber in d ==> CommonResult(d, id, privatetags)[AccessionNumber] == Str("")
  {
    StudyRunFills();
    StaffRunMissesStudy();
    DemographicsRunMissesStudy();
    ReviewRunMissesStudy();
    if InstanceCreationDate in d {
      CommonFillFor(id, InstanceCreationDate);
      CommonFixed(d, id, privatetags, InstanceCreationDate, Str("19010101"));
    }
    if InstanceCreationTime in d {
      CommonFillFor(id, InstanceCreationTime);
      CommonFixed(d, id, privatetags, InstanceCreationTime, Str("000000"));
    }
    if StudyDate in d {
      CommonFillFor(id, StudyDate);
      CommonFixed(d, id, privatetags, StudyDate, Str("19010101"));
    }
    if StudyTime in d {
      CommonFillFor(id, StudyTime);
      CommonFixed(d, id, privatetags, StudyTime, Str("000000"));
    }
    if AccessionNumber in d {
      CommonFillFor(id, AccessionNumber);
      CommonFixed(d, id, privatetags, AccessionNumber, Str(""));
    }
  }

  /** The fixed placeholders of the demographics: a present birth date, sex,
      age, weight and size hold '', 'O', '000Y', 0 and 0. */
  lemma CommonDemographicPlaceholders(d: Dataset, id: Identity, privatetags: bool)
    ensures PatientsBirthDate in d ==> CommonResult(d, id, privatetags)[PatientsBirthDate] == Str("")
    ensures PatientsSex in d ==> CommonResult(d, id, privatetags)[PatientsSex] == Str("O")
    ensures PatientsAge in d ==> CommonResult(d, id, privatetags)[PatientsAge] == Str("000Y")
    ensures PatientsWeight in d ==> CommonResult(d, id, privatetags)[PatientsWeight] == Num(0)
    ensures PatientsSize in d ==> CommonResult(d, id, privatetags)[PatientsSize] == Num(0)
  {
    DemographicsRunFills();
    ReviewRunMissesDemographics();
    if PatientsBirthDate in d {
      CommonFillFor(id, PatientsBirthDate);
      CommonFixed(d, id, privatetags, PatientsBirthDate, Str(""));
    }
    if PatientsSex in d {
      CommonFillFor(id, PatientsSex);
      CommonFixed(d, id, privatetags, PatientsSex, Str("O"));
    }
    if PatientsAge in d {
      CommonFillFor(id, PatientsAge);
      CommonFixed(d, id, privatetags, PatientsAge, Str("000Y"));
    }
    if PatientsWeight in d {
      CommonFillFor(id, PatientsWeight);
      CommonFixed(d, id, privatetags, PatientsWeight, Num(0));
    }
    if PatientsSize in d {
      CommonFillFor(id, PatientsSize);
      CommonFixed(d, id, privatetags, PatientsSize, Num(0));
    }
  }

  /** Applying the common policy a second time, with the same identity and
      flag, changes nothing more. */
  lemma CommonIdempotent(d: Dataset, id: Identity, privatetags: bool)
    ensures CommonResult(CommonResult(d, id, privatetags), id, privatetags) == CommonResult(d, id, privatetags)
  {
    var s := StripIf(d, privatetags);
    if privatetags {
      StripOverwrite(s, CommonRows(id), id);
      RemovePrivateTagsIdempotent(d);
    }
    OverwriteIdempotent(s, CommonRows(id), id);
  }
}
