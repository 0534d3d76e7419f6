/** What each kind of document becomes: the structure set keeps the patient's
    identity and private elements, the plan, dose and images take the minted
    identity, and the plan's beams and treatment machines get different
    institution names. */
module DocumentFacts {
  import opened DicomData
  import opened Overwrites
  import opened Policy
  import opened PolicyFacts

  /** Writing a table only changes what it names. */
  lemma OverwriteUnnamed(d: Dataset, rows: Rows, id: Identity, k: Key)
    requires k in d && FillFor(rows, k) == None
    ensures Overwrite(d, rows, id)[k] == d[k]
  {
  }

  /** Writing a table puts the placeholder it prescribes. */
  lemma OverwriteNamed(d: Dataset, rows: Rows, id: Identity, k: Key, f: Fill)
    requires k in d && FillFor(rows, k) == Some(f)
    ensures Overwrite(d, rows, id)[k] == Resolve(f, id)
  {
  }

  // ---------------------------------------------------------------------------
  // The structure set.

  lemma StructureSetRowsFacts()
    ensures AllPublic(StructureSetRows)
    ensures FillFor(StructureSetRows, PatientName) == None
    ensures FillFor(StructureSetRows, PatientID) == None
  {
  }

  /** The structure set only changes the elements its own table names and the
      observations sequence: no other element, private or not, is touched. */
  lemma StructureSetUnnamed(d: Dataset, id: Identity, k: Key)
    requires k in d && FillFor(StructureSetRows, k) == None && k != RTROIObservations
    ensures k in StructureSetResult(d, id) && StructureSetResult(d, id)[k] == d[k]
  {
  }

  /** The structure set keeps the original patient name and ID, and every
      private element: it receives nothing of the common policy. */
  lemma StructureSetKeepsIdentity(d: Dataset, id: Identity)
    ensures StructureSetResult(d, id).Keys == d.Keys
    ensures PatientName in d ==> StructureSetResult(d, id)[PatientName] == d[PatientName]
    ensures PatientID in d ==> StructureSetResult(d, id)[PatientID] == d[PatientID]
    ensures forall k :: k in d && IsPrivate(k) ==> StructureSetResult(d, id)[k] == d[k]
  {
    StructureSetRowsFacts();
    if PatientName in d {
      StructureSetUnnamed(d, id, PatientName);
    }
    if PatientID in d {
      StructureSetUnnamed(d, id, PatientID);
    }
    forall k | k in d && IsPrivate(k)
      ensures StructureSetResult(d, id)[k] == d[k]
    {
      AllPublicMissPrivate(StructureSetRows, k);
      StructureSetUnnamed(d, id, k);
    }
  }

  // ---------------------------------------------------------------------------
  // The plan.

  lemma PlanRowsFacts()
    ensures FillFor(PlanRows, PatientName) == None && FillFor(PlanRows, PatientID) == None
    ensures FillFor(PlanRows, Beams) == None && FillFor(PlanRows, TreatmentMachines) == None
    ensures FillFor(BeamRows, InstitutionName) == Some(Fixed(Str("institution")))
    ensures FillFor(TreatmentMachineRows, InstitutionName) == Some(Fixed(Str("vendor")))
  {
  }

  lemma RunsMissBeams(id: Identity)
    ensures FillFor(IdentityRows(id), Beams) == None
    ensures FillFor(StudyRows, Beams) == None && FillFor(StaffRows, Beams) == None
    ensures FillFor(DemographicsRows, Beams) == None && FillFor(ReviewRows, Beams) == None
  {
  }

  lemma RunsMissMachines(id: Identity)
    ensures FillFor(IdentityRows(id), TreatmentMachines) == None
    ensures FillFor(StudyRows, TreatmentMachines) == None && FillFor(StaffRows, TreatmentMachines) == None
    ensures FillFor(DemographicsRows, TreatmentMachines) == None && FillFor(ReviewRows, TreatmentMachines) == None
  {
  }

  /** The common table touches neither the beams nor the treatment machines. */
  lemma CommonMissesSequences(id: Identity)
    ensures FillFor(CommonRows(id), Beams) == None
    ensures FillFor(CommonRows(id), TreatmentMachines) == None
  {
    RunsMissBeams(id);
    RunsMissMachines(id);
    CommonFillFor(id, Beams);
    CommonFillFor(id, TreatmentMachines);
  }

  /** The plan keeps the elements of its common result: no element is added
      or removed by its own table or the passes over its items. */
  lemma PlanKeys(d: Dataset, id: Identity, privatetags: bool)
    ensures PlanResult(d, id, privatetags).Keys == CommonResult(d, id, privatetags).Keys
  {
  }

  /** The plan keeps what the common policy made of its identity elements. */
  lemma PlanIdentity(d: Dataset, id: Identity, privatetags: bool)
    ensures PatientName in d ==> PlanResult(d, id, privatetags)[PatientName] == CommonResult(d, id, privatetags)[PatientName]
    ensures PatientID in d ==> PlanResult(d, id, privatetags)[PatientID] == CommonResult(d, id, privatetags)[PatientID]
  {
    PlanRowsFacts();
    PlanKeys(d, id, privatetags);
    var common := CommonResult(d, id, privatetags);
    if PatientName in d {
      CommonPatientName(d, id, privatetags);
      OverwriteUnnamed(common, PlanRows, id, PatientName);
    }
    if PatientID in d {
      CommonPatientID(d, id, privatetags);
      OverwriteUnnamed(common, PlanRows, id, PatientID);
    }
  }

  /** The own-table step of the plan leaves the beams and the treatment machines
      as they were in the original plan. */
  lemma PlanSequencesBeforePasses(d: Dataset, id: Identity, privatetags: bool, key: Key)
    requires key == Beams || key == TreatmentMachines
    requires key in d
    ensures key in Overwrite(CommonResult(d, id, privatetags), PlanRows, id)
    ensures Overwrite(CommonResult(d, id, privatetags), PlanRows, id)[key] == d[key]
  {
    PlanRowsFacts();
    CommonMissesSequences(id);
    var s := StripIf(d, privatetags);
    OverwriteUnnamed(s, CommonRows(id), id, key);
    OverwriteUnnamed(CommonResult(d, id, privatetags), PlanRows, id, key);
  }

  /** The plan keeps the number of its beams and of its treatment machines. */
  lemma PlanItemCount(d: Dataset, id: Identity, privatetags: bool, key: Key)
    requires key == Beams || key == TreatmentMachines
    requires key in d && d[key].Items?
    ensures PlanResult(d, id, privatetags)[key].Items?
    ensures |PlanResult(d, id, privatetags)[key].items| == |d[key].items|
  {
    PlanSequencesBeforePasses(d, id, privatetags, key);
  }

  /** Every beam that names an institution is given "institution". */
  lemma PlanBeamInstitution(d: Dataset, id: Identity, privatetags: bool, j: nat)
    requires Beams in d && d[Beams].Items? && j < |d[Beams].items|
    requires InstitutionName in d[Beams].items[j]
    ensures PlanResult(d, id, privatetags)[Beams].Items?
    ensures |PlanResult(d, id, privatetags)[Beams].items| == |d[Beams].items|
    ensures InstitutionName in PlanResult(d, id, privatetags)[Beams].items[j]
    ensures PlanResult(d, id, privatetags)[Beams].items[j][InstitutionName] == Str("institution")
  {
    PlanSequencesBeforePasses(d, id, privatetags, Beams);
    PlanRowsFacts();
    OverwriteNamed(d[Beams].items[j], BeamRows, id, InstitutionName, Fixed(Str("institution")));
  }

  /** Every treatment machine that names an institution is given "vendor", not
      the "institution" the beams and the images get. */
  lemma PlanMachineInstitution(d: Dataset, id: Identity, privatetags: bool, j: nat)
    requires TreatmentMachines in d && d[TreatmentMachines].Items? && j < |d[TreatmentMachines].items|
    requires InstitutionName in d[TreatmentMachines].items[j]
    ensures PlanResult(d, id, privatetags)[TreatmentMachines].Items?
    ensures |PlanResult(d, id, privatetags)[TreatmentMachines].items| == |d[TreatmentMachines].items|
    ensures InstitutionName in PlanResult(d, id, privatetags)[TreatmentMachines].items[j]
    ensures PlanResult(d, id, privatetags)[TreatmentMachines].items[j][InstitutionName] == Str("vendor")
  {
    PlanSequencesBeforePasses(d, id, privatetags, TreatmentMachines);
    PlanRowsFacts();
    OverwriteNamed(d[TreatmentMachines].items[j], TreatmentMachineRows, id, InstitutionName, Fixed(Str("vendor")));
  }

  // ---------------------------------------------------------------------------
  // The dose and the images.

  lemma DoseImageRowsFacts()
    ensures FillFor(DoseRows, PatientName) == None && FillFor(DoseRows, PatientID) == None
    ensures FillFor(ImageRows, PatientName) == None && FillFor(ImageRows, PatientID) == None
    ensures FillFor(DoseRows, SeriesDescription) == Some(Fixed(Str("RT Dose")))
    ensures FillFor(ImageRows, InstitutionName) == Some(Fixed(Str("institution")))
  {
  }

  /** The dose keeps what the common policy made of its identity elements, and
      is described as "RT Dose". */
  lemma DoseFacts(d: Dataset, id: Identity, privatetags: bool)
    ensures DoseResult(d, id, privatetags).Keys == CommonResult(d, id, privatetags).Keys
    ensures PatientName in d ==> DoseResult(d, id, privatetags)[PatientName] == CommonResult(d, id, privatetags)[PatientName]
    ensures PatientID in d ==> DoseResult(d, id, privatetags)[PatientID] == CommonResult(d, id, privatetags)[PatientID]
    ensures SeriesDescription in d ==> DoseResult(d, id, privatetags)[SeriesDescription] == Str("RT Dose")
  {
    DoseImageRowsFacts();
    var common := CommonResult(d, id, privatetags);
    if PatientName in d {
      CommonPatientName(d, id, privatetags);
      OverwriteUnnamed(common, DoseRows, id, PatientName);
    }
    if PatientID in d {
      CommonPatientID(d, id, privatetags);
      OverwriteUnnamed(common, DoseRows, id, PatientID);
    }
    if SeriesDescription in d {
      OverwriteNamed(common, DoseRows, id, SeriesDescription, Fixed(Str("RT Dose")));
    }
  }

  /** An image keeps what the common policy made of its identity elements, and
      names "institution" as its institution. */
  lemma ImageFacts(d: Dataset, id: Identity, privatetags: bool)
    ensures ImageResult(d, id, privatetags).Keys == CommonResult(d, id, privatetags).Keys
    ensures PatientName in d ==> ImageResult(d, id, privatetags)[PatientName] == CommonResult(d, id, privatetags)[PatientName]
    ensures PatientID in d ==> ImageResult(d, id, privatetags)[PatientID] == CommonResult(d, id, privatetags)[PatientID]
    ensures InstitutionName in d ==> ImageResult(d, id, privatetags)[InstitutionName] == Str("institution")
  {
    DoseImageRowsFacts();
    var common := CommonResult(d, id, privatetags);
    if PatientName in d {
      CommonPatientName(d, id, privatetags);
      OverwriteUnnamed(common, ImageRows, id, PatientName);
    }
    if PatientID in d {
      CommonPatientID(d, id, privatetags);
      OverwriteUnnamed(common, ImageRows, id, PatientID);
    }
    if InstitutionName in d {
      OverwriteNamed(common, ImageRows, id, InstitutionName, Fixed(Str("institution")));
    }
  }
}
