/** The documents of a series: the structure set, the plan, the dose and an
    image, each anonymized in the plugin's order of writes and proved to
    receive its table of the policy. */
module Documents {
  import opened DicomData
  import opened Overwrites
  import opened Policy
  import opened CommonElements

  // ---------------------------------------------------------------------------
  // The passes over the items of a sequence element. The items are written in
  // place in the plugin; here each written item is collected in `done`, which
  // replaces the sequence once every item has been written.

  /** Writes the ROI interpreter of each observation, when there is a RTROIObservations sequence. */
  method UpdateRoiObservations(data: Dataset, ghost id: Identity) returns (r: Dataset)
    ensures r == OverwriteItems(data, RTROIObservations, RoiObservationRows, id)
  {
    r := data;
    if RTROIObservations in data && data[RTROIObservations].Items? {
      var items := data[RTROIObservations].items;
      var done: seq<Dataset> := [];
      for j := 0 to |items|
        invariant |done| == j
        invariant forall m :: 0 <= m < j ==> done[m] == Overwrite(items[m], RoiObservationRows, id)
      {
        var item := items[j];
        ghost var rest := RoiObservationRows;
        item, rest := UpdateElement(item, ROIInterpreter, Str("anonymous")), rest.rest;
        assert Apply(item, rest, id) == Apply(items[j], RoiObservationRows, id);
        ApplyIsOverwrite(items[j], RoiObservationRows, id);
        done := done + [item];
      }
      assert done == OverwriteEach(items, RoiObservationRows, id);
      r := data[RTROIObservations := Items(done)];
    }
  }

  /** Writes the label of each tolerance table, when there is a ToleranceTables sequence. */
  method UpdateToleranceTables(data: Dataset, ghost id: Identity) returns (r: Dataset)
    ensures r == OverwriteItems(data, ToleranceTables, ToleranceTableRows, id)
  {
    r := data;
    if ToleranceTables in data && data[ToleranceTables].Items? {
      var items := data[ToleranceTables].items;
      var done: seq<Dataset> := [];
      for j := 0 to |items|
        invariant |done| == j
        invariant forall m :: 0 <= m < j ==> done[m] == Overwrite(items[m], ToleranceTableRows, id)
      {
        var item := items[j];
        ghost var rest := ToleranceTableRows;
        item, rest := UpdateElement(item, ToleranceTableLabel, Str("tolerance")), rest.rest;
        assert Apply(item, rest, id) == Apply(items[j], ToleranceTableRows, id);
        ApplyIsOverwrite(items[j], ToleranceTableRows, id);
        done := done + [item];
      }
      assert done == OverwriteEach(items, ToleranceTableRows, id);
      r := data[ToleranceTables := Items(done)];
    }
  }

  /** Writes the equipment of each beam, when there is a Beams sequence. */
  method UpdateBeams(data: Dataset, ghost id: Identity) returns (r: Dataset)
    ensures r == OverwriteItems(data, Beams, BeamRows, id)
  {
    r := data;
    if Beams in data && data[Beams].Items? {
      var items := data[Beams].items;
      var done: seq<Dataset> := [];
      for j := 0 to |items|
        invariant |done| == j
        invariant forall m :: 0 <= m < j ==> done[m] == Overwrite(items[m], BeamRows, id)
      {
        var item := items[j];
        ghost var rest := BeamRows;
        item, rest := UpdateElement(item, Manufacturer, Str("manufacturer")), rest.rest;
        assert Apply(item, rest, id) == Apply(items[j], BeamRows, id);
        item, rest := UpdateElement(item, InstitutionName, Str("institution")), rest.rest;
        assert Apply(item, rest, id) == Apply(items[j], BeamRows, id);
        item, rest := UpdateElement(item, InstitutionAddress, Str("address")), rest.rest;
        assert Apply(item, rest, id) == Apply(items[j], BeamRows, id);
        item, rest := UpdateElement(item, InstitutionalDepartmentName, Str("department")), rest.rest;
        assert Apply(item, rest, id) == Apply(items[j], BeamRows, id);
        item, rest := UpdateElement(item, ManufacturersModelName, Str("model")), rest.rest;
        assert Apply(item, rest, id) == Apply(items[j], BeamRows, id);
        item, rest := UpdateElement(item, TreatmentMachineName, Str("txmachine")), rest.rest;
        assert Apply(item, rest, id) == Apply(items[j], BeamRows, id);
        ApplyIsOverwrite(items[j], BeamRows, id);
        done := done + [item];
      }
      assert done == OverwriteEach(items, BeamRows, id);
      r := data[Beams := Items(done)];
    }
  }

  /** Writes the equipment of each treatment machine, when there is a TreatmentMachines sequence. */
  method UpdateTreatmentMachines(data: Dataset, ghost id: Identity) returns (r: Dataset)
    ensures r == OverwriteItems(data, TreatmentMachines, TreatmentMachineRows, id)
  {
    r := data;
    if TreatmentMachines in data && data[TreatmentMachines].Items? {
      var items := data[TreatmentMachines].items;
      var done: seq<Dataset> := [];
      for j := 0 to |items|
        invariant |done| == j
        invariant forall m :: 0 <= m < j ==> done[m] == Overwrite(items[m], TreatmentMachineRows, id)
      {
        var item := items[j];
        ghost var rest := TreatmentMachineRows;
        item, rest := UpdateElement(item, Manufacturer, Str("manufacturer")), rest.rest;
        assert Apply(item, rest, id) == Apply(items[j], TreatmentMachineRows, id);
        item, rest := UpdateElement(item, InstitutionName, Str("vendor")), rest.rest;
        assert Apply(item, rest, id) == Apply(items[j], TreatmentMachineRows, id);
        item, rest := UpdateElement(item, InstitutionAddress, Str("address")), rest.rest;
        assert Apply(item, rest, id) == Apply(items[j], TreatmentMachineRows, id);
        item, rest := UpdateElement(item, InstitutionalDepartmentName, Str("department")), rest.rest;
        assert Apply(item, rest, id) == Apply(items[j], TreatmentMachineRows, id);
        item, rest := UpdateElement(item, ManufacturersModelName, Str("model")), rest.rest;
        assert Apply(item, rest, id) == Apply(items[j], TreatmentMachineRows, id);
        item, rest := UpdateElement(item, DeviceSerialNumber, Str("0")), rest.rest;
        assert Apply(item, rest, id) == Apply(items[j], TreatmentMachineRows, id);
        item, rest := UpdateElement(item, TreatmentMachineName, Str("txmachine")), rest.rest;
        assert Apply(item, rest, id) == Apply(items[j], TreatmentMachineRows, id);
        ApplyIsOverwrite(items[j], TreatmentMachineRows, id);
        done := done + [item];
      }
      assert done == OverwriteEach(items, TreatmentMachineRows, id);
      r := data[TreatmentMachines := Items(done)];
    }
  }

  /** Writes the manufacturer and isotope of each source, when there is a Sources sequence. */
  method UpdateSources(data: Dataset, ghost id: Identity) returns (r: Dataset)
    ensures r == OverwriteItems(data, Sources, SourceRows, id)
  {
    r := data;
    if Sources in data && data[Sources].Items? {
      var items := data[Sources].items;
      var done: seq<Dataset> := [];
      for j := 0 to |items|
        invariant |done| == j
        invariant forall m :: 0 <= m < j ==> done[m] == Overwrite(items[m], SourceRows, id)
      {
        var item := items[j];
        ghost var rest := SourceRows;
        item, rest := UpdateElement(item, SourceManufacturer, Str("manufacturer")), rest.rest;
        assert Apply(item, rest, id) == Apply(items[j], SourceRows, id);
        item, rest := UpdateElement(item, SourceIsotopeName, Str("isotope")), rest.rest;
        assert Apply(item, rest, id) == Apply(items[j], SourceRows, id);
        ApplyIsOverwrite(items[j], SourceRows, id);
        done := done + [item];
      }
      assert done == OverwriteEach(items, SourceRows, id);
      r := data[Sources := Items(done)];
    }
  }

  // ---------------------------------------------------------------------------
  // The documents. Each document's own elements are written by a method of
  // their own, like the common elements.

  /** The structure set's description, date and time. */
  method UpdateStructureSetElements(data: Dataset, ghost id: Identity) returns (r: Dataset)
    ensures r == Apply(data, StructureSetRows, id)
  {
    ghost var rest := StructureSetRows;
    r := data;
    r, rest := UpdateElement(r, SeriesDescription, Str("RT Structure Set")), rest.rest;
    assert Apply(r, rest, id) == Apply(data, StructureSetRows, id);
    r, rest := UpdateElement(r, StructureSetDate, Str(EpochDate)), rest.rest;
    assert Apply(r, rest, id) == Apply(data, StructureSetRows, id);
    r, rest := UpdateElement(r, StructureSetTime, Str(ZeroTime)), rest.rest;
    assert Apply(r, rest, id) == Apply(data, StructureSetRows, id);
  }

  /** The plan's description, name, date and time. */
  method UpdatePlanElements(data: Dataset, ghost id: Identity) returns (r: Dataset)
    ensures r == Apply(data, PlanRows, id)
  {
    ghost var rest := PlanRows;
    r := data;
    r, rest := UpdateElement(r, SeriesDescription, Str("RT Plan")), rest.rest;
    assert Apply(r, rest, id) == Apply(data, PlanRows, id);
    r, rest := UpdateElement(r, RTPlanName, Str("plan")), rest.rest;
    assert Apply(r, rest, id) == Apply(data, PlanRows, id);
    r, rest := UpdateElement(r, RTPlanDate, Str(EpochDate)), rest.rest;
    assert Apply(r, rest, id) == Apply(data, PlanRows, id);
    r, rest := UpdateElement(r, RTPlanTime, Str(ZeroTime)), rest.rest;
    assert Apply(r, rest, id) == Apply(data, PlanRows, id);
  }

  /** The dose's description. */
  method UpdateDoseElements(data: Dataset, ghost id: Identity) returns (r: Dataset)
    ensures r == Apply(data, DoseRows, id)
  {
    ghost var rest := DoseRows;
    r := data;
    r, rest := UpdateElement(r, SeriesDescription, Str("RT Dose")), rest.rest;
    assert Apply(r, rest, id) == Apply(data, DoseRows, id);
  }

  /** An image's series and content dates and times, and its institution. */
  method UpdateImageElements(data: Dataset, ghost id: Identity) returns (r: Dataset)
    ensures r == Apply(data, ImageRows, id)
  {
    ghost var rest := ImageRows;
    r := data;
    r, rest := UpdateElement(r, SeriesDate, Str(EpochDate)), rest.rest;
    assert Apply(r, rest, id) == Apply(data, ImageRows, id);
    r, rest := UpdateElement(r, ContentDate, Str(EpochDate)), rest.rest;
    assert Apply(r, rest, id) == Apply(data, ImageRows, id);
    r, rest := UpdateElement(r, SeriesTime, Str(ZeroTime)), rest.rest;
    assert Apply(r, rest, id) == Apply(data, ImageRows, id);
    r, rest := UpdateElement(r, ContentTime, Str(ZeroTime)), rest.rest;
    assert Apply(r, rest, id) == Apply(data, ImageRows, id);
    r, rest := UpdateElement(r, InstitutionName, Str("institution")), rest.rest;
    assert Apply(r, rest, id) == Apply(data, ImageRows, id);
    r, rest := UpdateElement(r, InstitutionAddress, Str("address")), rest.rest;
    assert Apply(r, rest, id) == Apply(data, ImageRows, id);
    r, rest := UpdateElement(r, InstitutionalDepartmentName, Str("department")), rest.rest;
    assert Apply(r, rest, id) == Apply(data, ImageRows, id);
  }

  /** The structure set: its own elements, then the ROI interpreters; it
      receives nothing of the common policy. */
  method AnonymizeStructureSet(rtss: Dataset, ghost id: Identity) returns (r: Dataset)
    ensures r == StructureSetResult(rtss, id)
  {
    r := UpdateStructureSetElements(rtss, id);
    ApplyIsOverwrite(rtss, StructureSetRows, id);
    r := UpdateRoiObservations(r, id);
  }

  /** The plan: the common elements, its own elements, then the passes over
      its tolerance tables, beams, treatment machines and sources. */
  method AnonymizePlan(rtplan: Dataset, name: string, patientid: string, privatetags: bool)
    returns (r: Dataset)
    ensures r == PlanResult(rtplan, Identity(name, patientid), privatetags)
  {
    ghost var id := Identity(name, patientid);
    var common := UpdateCommonElements(rtplan, name, patientid, privatetags);
    r := UpdatePlanElements(common, id);
    ApplyIsOverwrite(common, PlanRows, id);
    r := UpdateToleranceTables(r, id);
    r := UpdateBeams(r, id);
    r := UpdateTreatmentMachines(r, id);
    r := UpdateSources(r, id);
  }

  /** The dose: the common elements and its series description. */
  method AnonymizeDose(rtdose: Dataset, name: string, patientid: string, privatetags: bool)
    returns (r: Dataset)
    ensures r == DoseResult(rtdose, Identity(name, patientid), privatetags)
  {
    ghost var id := Identity(name, patientid);
    var common := UpdateCommonElements(rtdose, name, patientid, privatetags);
    r := UpdateDoseElements(common, id);
    ApplyIsOverwrite(common, DoseRows, id);
  }

  /** An image: the common elements, then its dates, times and institution. */
  method AnonymizeImage(image: Dataset, name: string, patientid: string, privatetags: bool)
    returns (r: Dataset)
    ensures r == ImageResult(image, Identity(name, patientid), privatetags)
  {
    ghost var id := Identity(name, patientid);
    var common := UpdateCommonElements(image, name, patientid, privatetags);
    r := UpdateImageElements(common, id);
    ApplyIsOverwrite(common, ImageRows, id);
  }
}
