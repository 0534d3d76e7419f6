# Bulk anonymization of DICOM RT series

This project models the de-identification core of the dicompyler bulk-anonymization
plugin, `bulkanonymize.py`, and proves what that core promises.

The plugin takes a selection of patients → studies → series. Each series holds an optional
RT Structure Set, RT Plan and RT Dose and a list of images. For every series the plugin:

- mints a fresh patient name and patient ID;
- makes the directory `<base>/<patient>/<study>/<series>`;
- anonymizes each document of the series by presence-checked overwrites: an element is written
  only when the document already holds it, so no element is ever introduced;
- saves the documents as `rtss.dcm`, `rtplan.dcm`, `rtdose.dcm` and `<modality>.<n>.dcm`.

It reports progress once per patient.

The model is laid out as the plugin's code is:

| module | file | models |
|---|---|---|
| `DicomData` | dicom_data.dfy | A data set is a finite map from tag to value, where a value is text, a number or a sequence of nested items. Also `updateElement` and `remove_private_tags`. |
| `Overwrites` | overwrite.dfy | A run of `updateElement` calls is written as a table of rows. `Apply` performs the rows one write at a time, in order. `Overwrite` is the declarative reference they are proved equal to. |
| `Policy` | policy.dfy | The plugin's tables: the common elements, and each document's and nested item's own elements, with their placeholders. Also what each kind of document becomes. |
| `CommonElements` | common_elements.dfy | `updateCommonElements` as a method, one write after the other, proved to perform the common policy. |
| `Documents` | documents.dfy | The per-document writes and the `for` loops over `RTROIObservations`, `ToleranceTables`, `Beams`, `TreatmentMachines` and `Sources`, each with its loop invariants. |
| `FileNames` | file_names.dfy | The output file names and the `<modality>.<n>.dcm` rule. |
| `Series` | series.dfy | `AnonymizeDataThread`: the document count, the role documents, and the loop over the images that saves each one. |
| `Batch` | batch.dfy | The nested loops of `pluginMenu`: directories, minted identities, progress reports, and the stop when a series fails. |
| `PolicyFacts`, `DocumentFacts`, `SeriesFacts`, `BatchFacts` | *_facts.dfy | What the policy, the documents, a series and the batch guarantee. |

A save is recorded as an entry `Saved(path, document)` in an output log. The batch's
observable behaviour is a trace of events:

- `Progress(i, n)` for each progress report;
- `Enter(Call(path, identity))` when a series directory is made and a series begins;
- `Write(saved)` for each file saved.

The identifier source `uuid.uuid1()` is the parameter `mint: nat -> string`. The k-th string
drawn is `mint(k)`. The UID dictionary behind `SOPClassUID.name` is the parameter
`uidName: string -> string`.

Where the code departs from the behaviour one might expect of it, the model follows the code:

- An identity pair is minted for every series (lines 97-98, inside the series loop), not once
  per patient. Two series of the same patient therefore receive different identities
  (`BatchFacts.BatchFreshIdentities`).
- Progress is reported once per patient, before that patient's studies, as `(i, number of patients)`
  (line 91). It is not reported per completed series.
- Errors are not collected. An image with no SOP class UID makes the attribute access at line 181
  raise. The exception ends `AnonymizeDataThread` before that image is saved, and it also ends
  `pluginMenu`. The model writes this as `completed == false`, after which no further step of the
  batch is taken. The documents saved before that point stay saved.
- An image without `SeriesDate` does not receive the placeholder `19010101`. The code writes
  `SeriesDate` only when the element is present (lines 174 and 189), so an absent `SeriesDate`
  stays absent (`DicomData.UpdateElement`).
- The code writes the patient name twice (lines 196-197), once under `PatientsName` and once
  under `PatientName`. `PatientName` is the keyword the DICOM data dictionary (DICOM PS3.6) gives
  element (0010,0010); `PatientsName` is the keyword older releases of the DICOM library used for
  it. The model resolves both to (0010,0010), so the two writes write one element twice.

## Model

| member | source | states |
|---|---|---|
| DicomData.UpdateElement | bulkanonymize.py:186-190 | The key set never changes. A key that was present holds the new value. |
| DicomData.UpdateElementOthers | bulkanonymize.py:186-190 | Every element other than the written one keeps its value. A write to an absent key leaves the data set as it was. |
| DicomData.RemovePrivateTags | bulkanonymize.py:200-201 | Exactly the private (odd-group) elements are removed. Every other element is kept with its value. |
| DicomData.RemovePrivateTagsIdempotent | bulkanonymize.py:200-201 | Removing private elements a second time changes nothing. |
| Overwrites.Apply | bulkanonymize.py:186-229 | Definition: the rows of a table performed as presence-checked writes, one after the other; its properties are proved in `Overwrites.ApplyIsOverwrite`. |
| Overwrites.Overwrite | bulkanonymize.py:202-229 | Overwriting with a table neither adds nor removes an element. |
| Overwrites.OverwriteRow | bulkanonymize.py:186-190 | Writing one element and then overwriting with the rest of a table is overwriting with the whole table. |
| Overwrites.ApplyIsOverwrite | bulkanonymize.py:202-229 | Performing a table's presence-checked writes one after the other, in order, yields the declarative overwrite. Present named elements hold their placeholder (the last row for them wins), the other elements keep their value, and absent elements stay absent. |
| Overwrites.FillForThen | bulkanonymize.py:195-229 | When two tables are written in sequence, the later table's placeholder wins for the elements it names. |
| Overwrites.OverwriteThen | bulkanonymize.py:195-229 | Overwriting with one table and then another equals one overwrite with both tables in that order. |
| Overwrites.StripOverwrite | bulkanonymize.py:195-201 | Removing private elements commutes with an overwrite. So the identity writes may come before the removal, as they do in the code. |
| Overwrites.OverwriteIdempotent | bulkanonymize.py:192-229 | Applying a table twice equals applying it once. |
| Policy.CommonResult | bulkanonymize.py:192-229 | Definition: private elements removed when asked, then the common table; its properties are proved in `PolicyFacts.CommonKeys`, `CommonPrivate`, `CommonPatientName`, `CommonPatientID`, `CommonStudyPlaceholders` and `CommonDemographicPlaceholders`. |
| Policy.StructureSetResult | bulkanonymize.py:121-128 | Definition: the structure set's table and the observation pass; its properties are proved in `DocumentFacts.StructureSetUnnamed` and `StructureSetKeepsIdentity`. |
| Policy.PlanResult | bulkanonymize.py:131-161 | Definition: the common policy, the plan's table and the four sequence passes; its properties are proved in `DocumentFacts.PlanKeys`, `PlanIdentity`, `PlanItemCount`, `PlanBeamInstitution` and `PlanMachineInstitution`. |
| Policy.DoseResult | bulkanonymize.py:164-167 | Definition: the common policy and then the dose's table; its properties are proved in `DocumentFacts.DoseFacts`. |
| Policy.ImageResult | bulkanonymize.py:173-180 | Definition: the common policy and then the image table; its properties are proved in `DocumentFacts.ImageFacts` and `SeriesFacts.ImageKeepsStorageClass`. |
| Overwrites.OverwriteEach | bulkanonymize.py:138-161 | A pass over a sequence's items keeps the number of items. |
| Overwrites.OverwriteItems | bulkanonymize.py:138-161 | A pass over a sequence element writes every item with the item table and keeps the number of items. Every other element is unchanged. When the sequence element is absent, nothing changes. |
| CommonElements.UpdateCommonElements | bulkanonymize.py:192-229 | The in-order writes produce the common result: private elements removed when asked, with the common table applied on top. |
| CommonElements.UpdateStudyElements | bulkanonymize.py:202-208 | The other-patient links, creation and study dates and times, and the accession number, each written when present. |
| CommonElements.UpdateStaffElements | bulkanonymize.py:209-215 | The manufacturer, physician, station, operator and model placeholders, each written when present. |
| CommonElements.UpdateDemographics | bulkanonymize.py:216-223 | The birth date, sex 'O', age '000Y', weight 0, size 0, address, history and ethnic group placeholders, each written when present. |
| CommonElements.UpdateReviewElements | bulkanonymize.py:224-229 | The study ID, device, software and review placeholders, each written when present. |
| CommonElements.CommonInOrder | bulkanonymize.py:195-229 | The code's order of steps performs the common policy: identity writes, then removal of private elements, then the four runs of writes. |
| Documents.UpdateRoiObservations | bulkanonymize.py:126-128 | Every item of RTROIObservations gets ROIInterpreter 'anonymous' when present. When the sequence is absent, nothing changes. |
| Documents.UpdateToleranceTables | bulkanonymize.py:138-140 | Every tolerance table gets its label 'tolerance' when present. When the sequence is absent, nothing changes. |
| Documents.UpdateBeams | bulkanonymize.py:141-148 | Every beam gets the manufacturer, institution, address, department, model and machine placeholders. When the sequence is absent, nothing changes. |
| Documents.UpdateTreatmentMachines | bulkanonymize.py:149-157 | Every treatment machine gets the same placeholders and a device serial number, with InstitutionName 'vendor'. When the sequence is absent, nothing changes. |
| Documents.UpdateSources | bulkanonymize.py:158-161 | Every source gets the manufacturer and isotope placeholders. When the sequence is absent, nothing changes. |
| Documents.UpdateStructureSetElements | bulkanonymize.py:123-125 | The structure set's description, date and time, each written when present. |
| Documents.UpdatePlanElements | bulkanonymize.py:134-137 | The plan's description, name, date and time, each written when present. |
| Documents.UpdateDoseElements | bulkanonymize.py:167-167 | The dose's description 'RT Dose', written when present. |
| Documents.UpdateImageElements | bulkanonymize.py:174-180 | An image's series and content dates and times and its institution placeholders, each written when present. |
| Documents.AnonymizeStructureSet | bulkanonymize.py:121-128 | The structure set gets its own table and the ROI interpreters, and nothing of the common policy. |
| Documents.AnonymizePlan | bulkanonymize.py:131-161 | The plan gets the common policy, then its own table, then the four sequence passes in order. |
| Documents.AnonymizeDose | bulkanonymize.py:164-167 | The dose gets the common policy and then its description. |
| Documents.AnonymizeImage | bulkanonymize.py:173-180 | An image gets the common policy and then its own table. |
| PolicyFacts.CommonFillFor | bulkanonymize.py:195-229 | The common placeholder of an element is the one from the last of the five runs that names it. |
| PolicyFacts.RunsMissIdentity | bulkanonymize.py:202-229 | None of the writes after the identity writes touches the patient name or patient ID. |
| PolicyFacts.CommonFillForIdentity | bulkanonymize.py:195-199 | The common table names the patient name exactly when the minted name is non-empty, and the patient ID exactly when the minted ID is non-empty. |
| PolicyFacts.RunsMissLinks | bulkanonymize.py:202-203 | OtherPatientIDs and OtherPatientNames are written only by the study run, with the minted ID and name. |
| PolicyFacts.AllPublicMissPrivate | bulkanonymize.py:195-229 | A table of public elements names no private element. |
| PolicyFacts.CommonRunsPublic | bulkanonymize.py:195-229 | Every element the common writes name is public. |
| PolicyFacts.CommonNamesNoPrivate | bulkanonymize.py:195-229 | The common table names no private element. |
| PolicyFacts.CommonKeys | bulkanonymize.py:192-229 | The common policy adds no element. It keeps every element except the private ones when those are removed. |
| PolicyFacts.CommonPrivate | bulkanonymize.py:200-201 | With `privatetags`, the common result holds no private element. Without it, every private element is kept unchanged. |
| PolicyFacts.CommonPatientName | bulkanonymize.py:195-197 | A present patient name becomes the minted name when that name is non-empty, and is kept when it is empty. |
| PolicyFacts.CommonPatientID | bulkanonymize.py:198-199 | A present patient ID becomes the minted ID when that ID is non-empty, and is kept when it is empty. |
| PolicyFacts.CommonOtherPatientLinks | bulkanonymize.py:202-203 | OtherPatientIDs and OtherPatientNames, when present, get the minted ID and name, whether or not those are empty. |
| PolicyFacts.CommonStudyPlaceholders | bulkanonymize.py:204-208 | When present, InstanceCreationDate and StudyDate become '19010101', InstanceCreationTime and StudyTime become '000000', and AccessionNumber becomes ''. |
| PolicyFacts.CommonDemographicPlaceholders | bulkanonymize.py:216-220 | When present, PatientsBirthDate becomes '', PatientsSex 'O', PatientsAge '000Y', and PatientsWeight and PatientsSize 0. |
| PolicyFacts.CommonIdempotent | bulkanonymize.py:192-229 | Applying the common policy a second time, with the same identity, changes nothing. |
| DocumentFacts.OverwriteUnnamed | bulkanonymize.py:186-190 | An element a table does not name keeps its value. |
| DocumentFacts.OverwriteNamed | bulkanonymize.py:186-190 | A present element that a table names holds the placeholder prescribed for it. |
| DocumentFacts.StructureSetRowsFacts | bulkanonymize.py:123-125 | The structure set's table names only public elements, and names neither the patient name nor the patient ID. |
| DocumentFacts.StructureSetUnnamed | bulkanonymize.py:121-128 | Every structure-set element outside its table and the observations keeps its value. |
| DocumentFacts.StructureSetKeepsIdentity | bulkanonymize.py:121-129 | The structure set keeps its key set, its patient name, its patient ID and every private element. |
| DocumentFacts.PlanRowsFacts | bulkanonymize.py:134-157 | The plan's own table touches neither the identity nor the sequences. A beam's InstitutionName gets 'institution' and a machine's gets 'vendor'. |
| DocumentFacts.RunsMissBeams | bulkanonymize.py:195-229 | No run of the common writes names Beams. |
| DocumentFacts.RunsMissMachines | bulkanonymize.py:195-229 | No run of the common writes names TreatmentMachines. |
| DocumentFacts.CommonMissesSequences | bulkanonymize.py:192-229 | The common table touches neither Beams nor TreatmentMachines. |
| DocumentFacts.PlanKeys | bulkanonymize.py:131-161 | The plan has exactly the keys of its common result. |
| DocumentFacts.PlanIdentity | bulkanonymize.py:133-161 | The plan keeps the patient name and ID the common policy gave it. |
| DocumentFacts.PlanSequencesBeforePasses | bulkanonymize.py:133-137 | Before the sequence passes, Beams and TreatmentMachines are still as they were in the input. |
| DocumentFacts.PlanItemCount | bulkanonymize.py:141-157 | The plan keeps Beams and TreatmentMachines as sequences, with as many items as the input has. |
| DocumentFacts.PlanBeamInstitution | bulkanonymize.py:141-144 | Every beam that names an institution gets 'institution', and the number of beams is kept. |
| DocumentFacts.PlanMachineInstitution | bulkanonymize.py:149-152 | Every treatment machine that names an institution gets 'vendor', and the number of machines is kept. |
| DocumentFacts.DoseImageRowsFacts | bulkanonymize.py:164-180 | The dose and image tables do not touch the identity. They prescribe 'RT Dose' and 'institution'. |
| DocumentFacts.DoseFacts | bulkanonymize.py:164-167 | The dose has the common result's keys and identity, and a present description becomes 'RT Dose'. |
| DocumentFacts.ImageFacts | bulkanonymize.py:173-180 | An image has the common result's keys and identity, and a present InstitutionName becomes 'institution'. |
| FileNames.Modality | bulkanonymize.py:181-181 | The modality is a prefix of the storage class name: the text before ' Image Storage'. |
| FileNames.ImageFileName | bulkanonymize.py:181-183 | An image file name ends in '.dcm'; its form `<modality>.<n>.dcm` is pinned down in `FileNames.ImageFileNameInjective`. |
| FileNames.Lower | bulkanonymize.py:183-183 | Lower-casing keeps the length. |
| FileNames.PartitionHead | bulkanonymize.py:181-181 | The head is a prefix of the class name. The separator occurs nowhere before its end. Either the head is the whole name, or the separator starts right after it. |
| FileNames.NatToString | bulkanonymize.py:183-183 | The decimal representation is non-empty and made of digits. |
| FileNames.DigitInjective | bulkanonymize.py:183-183 | Distinct digits are distinct characters. |
| FileNames.NatToStringInjective | bulkanonymize.py:183-183 | Distinct indices have distinct decimal representations. |
| FileNames.ImageFileNameNotStem | bulkanonymize.py:181-183 | An image name is never a dot-free stem followed by '.dcm'. |
| FileNames.ImageFileNameNotFixed | bulkanonymize.py:181-183 | No image is ever named rtss.dcm, rtplan.dcm or rtdose.dcm. |
| FileNames.SplitAtLastDot | bulkanonymize.py:183-183 | A name `p.d`, where `d` has no dot, determines both `p` and `d`. |
| FileNames.ImageFileNameInjective | bulkanonymize.py:181-183 | Two images get the same name only when they have the same index and the same lower-cased modality. |
| FileNames.CtModality | bulkanonymize.py:181-183 | The modality of 'CT Image Storage' is 'ct'. |
| FileNames.CtExample | bulkanonymize.py:181-183 | The first two CT images are named ct.0.dcm and ct.1.dcm. |
| Series.DocumentCount | bulkanonymize.py:113-118 | Definition: one for each role document present, plus the number of images; its properties are proved in `SeriesFacts.SeriesCompleteCount`. |
| Series.StorageClass | bulkanonymize.py:181-181 | Definition: the UID dictionary's name for the image's SOP class UID, or none without one; its properties are proved in `SeriesFacts.ImageKeepsStorageClass` and `SeriesCompletedIff`. |
| Series.WrittenImages | bulkanonymize.py:172-180 | Anonymizing the image list keeps its length. |
| Series.NamedCount | bulkanonymize.py:172-183 | The images before the count all have a storage class. When the count is short of the list, the image at the count has none. |
| Series.ImageLog | bulkanonymize.py:172-184 | The n-th image file is the n-th anonymized image, saved under its `<modality>.<n>.dcm` name. |
| Series.RoleLog | bulkanonymize.py:121-169 | Definition: the structure set, plan and dose saved under their fixed names when present; its properties are proved in `SeriesFacts.RoleNamesDistinct` and `RoleLogPaths`. |
| Series.SeriesResult | bulkanonymize.py:110-184 | Definition: the role files, then the images up to the first unnamed one; its properties are proved in `SeriesFacts.SeriesPathsDistinct`, `SeriesCompleteCount`, `SeriesIdentityShared` and `SeriesCompletedIff`. |
| Series.AnonymizeDataThread | bulkanonymize.py:110-184 | The documents counted, then the files saved (the role documents, then the images up to the first unnamed one), and whether the whole series was saved. |
| Series.SaveRoles | bulkanonymize.py:121-169 | The structure set, plan and dose, each anonymized and saved under its fixed name when present, in that order. |
| Series.SaveImages | bulkanonymize.py:170-184 | The images in order up to the first without a SOP class UID. Completion holds exactly when none is missing. |
| SeriesFacts.RoleNamesDistinct | bulkanonymize.py:129-168 | Each role file has one of the three fixed names, and no two role files have the same one. |
| SeriesFacts.RoleLogPaths | bulkanonymize.py:121-169 | The role documents are written in the series directory under their role names. |
| SeriesFacts.DistinctNames | bulkanonymize.py:129-183 | Two file names in one directory give two paths. |
| SeriesFacts.ImageLogPaths | bulkanonymize.py:181-183 | The j-th class is the storage class of the j-th image, and the j-th image is saved in the series directory under the name for that class and index j. |
| SeriesFacts.LogPathsDistinct | bulkanonymize.py:121-184 | Role files and image files laid out this way never share a path. |
| SeriesFacts.SeriesPathsDistinct | bulkanonymize.py:121-184 | No two files written for one series share a path. |
| SeriesFacts.SeriesCompleteCount | bulkanonymize.py:113-184 | A series saved in full writes as many files as it has documents. |
| SeriesFacts.CommonCarries | bulkanonymize.py:192-229 | A document with the common result's keys and identity holds the minted name and ID, and no private element when those are removed. |
| SeriesFacts.PlanCarries | bulkanonymize.py:131-161 | The plan carries the series' identity. |
| SeriesFacts.DoseCarries | bulkanonymize.py:164-167 | The dose carries the series' identity. |
| SeriesFacts.ImageCarries | bulkanonymize.py:173-180 | Every image carries the series' identity. |
| SeriesFacts.SeriesIdentityShared | bulkanonymize.py:121-184 | Every file a series saves after the structure set carries the same minted identity. |
| SeriesFacts.RoleLogAfterRtss | bulkanonymize.py:131-169 | The plan and dose files carry the identity. |
| SeriesFacts.SopClassUnnamed | bulkanonymize.py:173-181 | Neither the common table nor the image table writes the SOP class UID. |
| SeriesFacts.ImageKeepsStorageClass | bulkanonymize.py:173-181 | Anonymizing an image keeps its storage class, so it keeps its file name. |
| SeriesFacts.SeriesCompletedIff | bulkanonymize.py:170-184 | A series is saved in full exactly when every input image has a storage class. |
| Batch.Writes | bulkanonymize.py:99-99 | A series' saves become one event each: the i-th event is the i-th save. |
| Batch.Perform | bulkanonymize.py:94-99 | Definition: a progress report, or a series run with the next two minted strings as its identity; its properties are proved in `BatchFacts.PerformAccounted`. |
| Batch.Steps | bulkanonymize.py:89-99 | Definition: the steps taken in order until one fails; its properties are proved in `Batch.StepsAppend`, `Batch.StepsDone` and `BatchFacts.StepsAccounted`. |
| Batch.Plan | bulkanonymize.py:89-94 | Definition: for each patient a progress report and then its series, in selection order; its properties are proved in `BatchFacts.BatchProgress`, `PlanPathsLocated` and `PlanPathsDistinct`. |
| Batch.BatchResult | bulkanonymize.py:86-99 | Definition: the plan taken from the start; its properties are proved in `BatchFacts.BatchAccounted`, `BatchIdentities` and `BatchDirectories`. |
| Batch.StepsDone | bulkanonymize.py:89-99 | The batch never takes more steps than its plan has. |
| Batch.StepsAppend | bulkanonymize.py:89-99 | Taking two lists of steps in turn equals taking their concatenation. |
| Batch.AnonymizeSeries | bulkanonymize.py:94-99 | One series: the directory is made, a name and then an ID are minted, and the series is anonymized with private elements removed. |
| Batch.RunThread | bulkanonymize.py:99-99 | The call of `AnonymizeDataThread` with `True`. |
| Batch.AnonymizeSeriesList | bulkanonymize.py:93-99 | The series of one study, in order, each in its own directory, stopping when one fails. |
| Batch.AnonymizeStudies | bulkanonymize.py:92-99 | The studies of one patient, in order, stopping when a series fails. |
| Batch.PluginMenu | bulkanonymize.py:86-99 | The nested loops produce the batch's trace: for each patient a progress report followed by its series. It stops at the first series that fails. |
| BatchFacts.EventsAppend | bulkanonymize.py:89-99 | The progress reports and series calls of concatenated traces concatenate. |
| BatchFacts.ProgressesAppend | bulkanonymize.py:89-91 | The progress reports of concatenated traces concatenate. |
| BatchFacts.CallsAppend | bulkanonymize.py:93-99 | The series calls of concatenated traces concatenate. |
| BatchFacts.StepViewsAppend | bulkanonymize.py:89-99 | The progress reports and directories of concatenated plans concatenate. |
| BatchFacts.TicksAppend | bulkanonymize.py:89-91 | The progress reports of concatenated plans concatenate. |
| BatchFacts.JobPathsAppend | bulkanonymize.py:92-94 | The directories of concatenated plans concatenate. |
| BatchFacts.WritesAreSaves | bulkanonymize.py:99-99 | Saving files reports no progress and begins no series. |
| BatchFacts.TickAccounted | bulkanonymize.py:90-91 | A progress report keeps the trace accounted for by the plan. |
| BatchFacts.EnterThenSaves | bulkanonymize.py:94-99 | Beginning a series and then saving its files adds exactly that one series call to the trace and no progress report. |
| BatchFacts.JobAccounted | bulkanonymize.py:94-99 | A series keeps the trace accounted for: the k-th call uses the k-th identity and the k-th directory. |
| BatchFacts.PerformAccounted | bulkanonymize.py:89-99 | Every step keeps the trace accounted for by the steps taken. |
| BatchFacts.StepsAccounted | bulkanonymize.py:89-99 | Taking steps keeps the trace accounted for. When nothing stopped, every step was taken. |
| BatchFacts.BatchAccounted | bulkanonymize.py:86-99 | The batch's trace is accounted for by a prefix of its plan, and by the whole plan when nothing stopped. |
| BatchFacts.SeriesStepsShape | bulkanonymize.py:93-94 | The series of a study report no progress, and the k-th lies in `dir/<k-th series UID>`. |
| BatchFacts.StudyStepsTicks | bulkanonymize.py:92-94 | The studies of a patient report no progress. |
| BatchFacts.PatientStepsTicks | bulkanonymize.py:89-91 | Patient i reports `(i, number of patients)`, counting from 1. |
| BatchFacts.BatchProgress | bulkanonymize.py:88-91 | The batch's progress reports are `(1, n)`, `(2, n)` and so on, up to where it stopped, and all through `(n, n)` when nothing stopped. |
| BatchFacts.BatchIdentities | bulkanonymize.py:97-98 | The k-th series is anonymized with the 2k-th and (2k+1)-th minted strings. |
| BatchFacts.BatchFreshIdentities | bulkanonymize.py:97-98 | With an identifier source that never repeats, no two series share a name or an ID, and no name equals any ID. |
| BatchFacts.BatchDirectories | bulkanonymize.py:92-94 | The series begin in selection order, each in its planned directory, and all of them when nothing stopped. |
| BatchFacts.DistinctAppend | bulkanonymize.py:92-94 | Two repetition-free lists with no element in common concatenate to a repetition-free list. |
| BatchFacts.OneStudyPaths | bulkanonymize.py:93-94 | The series directories of one study are distinct and lie at `dir/<study>/<series>`. |
| BatchFacts.StudyStepsPaths | bulkanonymize.py:92-94 | The series directories of one patient's studies are distinct and lie two levels below the patient directory, with the study's UID first. |
| BatchFacts.UnderDirectory | bulkanonymize.py:94-94 | A path under `dir/x` lies under `dir`, in entry `x`. |
| BatchFacts.OnePatientPaths | bulkanonymize.py:89-94 | The series directories of one patient are distinct and lie under `base/<patient>`. |
| BatchFacts.PatientStepsSplit | bulkanonymize.py:89-94 | The first patient's directories come before those of the other patients. |
| BatchFacts.HeadNotInTail | bulkanonymize.py:89-89 | In a repetition-free list, the first element does not recur. |
| BatchFacts.PatientStepsPaths | bulkanonymize.py:89-94 | The series directories of all patients are distinct and lie three levels under the base, under a selected patient. |
| BatchFacts.StudyStepsWithin | bulkanonymize.py:92-94 | Every series directory of a patient's studies is `dir/<study>/<series>` for a series of one of those studies. |
| BatchFacts.StudyStepsCover | bulkanonymize.py:92-94 | Every series of every study gets its directory `dir/<study>/<series>`. |
| BatchFacts.PatientStepsLocated | bulkanonymize.py:89-94 | The series directories of the patients are exactly the paths `base/<patient>/<study>/<series>` of their series. |
| BatchFacts.PlanPathsLocated | bulkanonymize.py:89-94 | The plan's directories are exactly the paths `base/<patient>/<study>/<series>` of the selected series. |
| BatchFacts.PlanPathsDistinct | bulkanonymize.py:89-94 | With dictionary-unique keys, no two series share a directory, and each is `<base>/<patient>/<study>/<series>` for a selected series. |
| BatchFacts.PlanExample | bulkanonymize.py:86-99 | One patient, one study and one series give one report `(1, 1)` and one directory `<base>/P/S/X`. |

## Left out

- The dialogs, toolbar, preferences and progress dialog (lines 20-84, 102-108) are user-interface glue. The batch starts from a given selection and base path. So the case where the folder dialog is cancelled and `base_path` is never bound is not modelled.
- `GetPatientDataFromDialog` (lines 231-252) walks the dialog's tree widget. Its output, the nested selection, is the model's input: a `Selection` in which patients, studies and series carry their keys.
- `uuid.uuid1()` is the parameter `mint`. The model does not establish that time-based UUIDs are unique; `BatchFreshIdentities` assumes it as a precondition.
- `SOPClassUID.name` is the parameter `uidName`, the UID dictionary lookup.
- `os.path.exists` and `os.makedirs` (lines 95-96) are collapsed into the `Enter` event. A directory that already exists is treated like a new one, as the existence check makes it.
- `os.path.join` is modelled as appending path components. How it treats an absolute component or an empty one is not modelled.
- `save_as` is an entry in the output log. File-system failures are not modelled.
- `wx.CallAfter` is modelled as a `Progress` event in the trace. Delivery to the progress dialog is not modelled.
- `remove_private_tags` removes the private elements of the top-level data set only. How the library treats private elements inside nested sequence items is not modelled.
- The data sets are values, and each operation returns the updated data set. The code instead updates the pydicom object in place, and the caller's `data` dictionary aliases it. The final contents are the same. The aliasing is not modelled.
- Exceptions: the only one modelled is the missing or non-text SOP class UID of an image (line 181), which ends the series and the batch. A sequence key holding something other than a sequence (lines 127, 139-161) is treated as absent rather than raising.
- The counter `i` in `AnonymizeDataThread` (lines 120-184) is never read, so it is not modelled. `length` is returned as the document count, although the code computes it and then never uses it either.
- The series and study loops are separate methods, `AnonymizeSeriesList` and `AnonymizeStudies`. The code nests them inline in `pluginMenu`. Each run of consecutive `updateElement` calls is likewise its own method.
- Lower-casing is ASCII-only (`FileNames.LowerChar`). Non-ASCII case mapping of storage-class names is not modelled.
- The keywords the code uses are resolved to the tags listed in `DicomData`. Several are keywords of older releases of the DICOM library rather than those of DICOM PS3.6: `PatientsName`, `PatientsSex`, `PatientsBirthDate`, `PatientsAge`, `PatientsWeight`, `PatientsSize`, `PatientsAddress`, `ReferringPhysiciansName`, `NameofPhysiciansReadingStudy`, `PhysiciansofRecord`, `ManufacturersModelName`, `RTROIObservations`, `ToleranceTables`, `Beams`, `TreatmentMachines` and `Sources`. The model assumes the library in use resolves them. With a library that does not, `element in data` is false for those keywords, their writes do nothing and the sequence loops find no sequence; that case is not modelled.
- `pluginProperties` (lines 20-33) is a constant dictionary and is not modelled. The threading import is unused.
