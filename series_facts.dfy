/** What a series writes: no two files of a series share a path, a series
    written in full writes each of its documents once, and every file but the
    structure set carries the series' minted identity. */
module SeriesFacts {
  import opened DicomData
  import opened Overwrites
  import opened Policy
  import opened PolicyFacts
  import opened DocumentFacts
  import opened FileNames
  import opened Series

  /** The fixed names of the role documents a series holds, in order. */
  function RoleNames(data: SeriesData): seq<string> {
    (if data.rtss.Some? then [RtssName] else [])
    + (if data.rtplan.Some? then [RtplanName] else [])
    + (if data.rtdose.Some? then [RtdoseName] else [])
  }

  /** Each role name is one of the three, and no two are alike. */
  lemma RoleNamesDistinct(data: SeriesData)
    ensures var names := RoleNames(data);
            (forall a :: 0 <= a < |names| ==> names[a] in {RtssName, RtplanName, RtdoseName})
            && (forall a, b :: 0 <= a < b < |names| ==> names[a] != names[b])
  {
    assert RtssName[2] == 's' && RtplanName[2] == 'p' && RtdoseName[2] == 'd';
  }

  /** The role documents are written in the series directory under their
      role names. */
  lemma RoleLogPaths(data: SeriesData, path: Path, id: Identity, privatetags: bool)
    ensures var roles := RoleLog(data, path, id, privatetags);
            |RoleNames(data)| == |roles|
            && forall a :: 0 <= a < |roles| ==> roles[a].path == path + [RoleNames(data)[a]]
  {
  }

  /** Two file names in the same directory give two paths. */
  lemma DistinctNames(path: Path, x: string, y: string)
    requires x != y
    ensures path + [x] != path + [y]
  {
    assert (path + [x])[|path|] == x;
    assert (path + [y])[|path|] == y;
  }

  /** The image files lie in the series directory, the j-th under the image
      name of index j for its storage class `classes[j]`. */
  lemma ImageLogPaths(written: seq<Dataset>, n: nat, path: Path, uidName: string -> string)
    returns (classes: seq<string>)
    requires n <= NamedCount(written, uidName)
    ensures var images := ImageLog(written, n, path, uidName);
            |classes| == |images|
            && (forall j :: 0 <= j < |classes| ==>
                  StorageClass(written[j], uidName).Some? && classes[j] == StorageClass(written[j], uidName).value)
            && forall j :: 0 <= j < |images| ==> images[j].path == path + [ImageFileName(classes[j], j)]
  {
    classes := seq(n, j requires 0 <= j < n => StorageClass(written[j], uidName).value);
  }

  /** Role files and image files, laid out as above, never share a path. */
  lemma LogPathsDistinct(roles: seq<Saved>, names: seq<string>, images: seq<Saved>, path: Path,
                         classes: seq<string>)
    requires |names| == |roles|
    requires forall a :: 0 <= a < |roles| ==>
               roles[a].path == path + [names[a]] && names[a] in {RtssName, RtplanName, RtdoseName}
    requires forall a, b :: 0 <= a < b < |names| ==> names[a] != names[b]
    requires |classes| == |images|
    requires forall j :: 0 <= j < |images| ==> images[j].path == path + [ImageFileName(classes[j], j)]
    ensures var log := roles + images;
            forall a, b :: 0 <= a < b < |log| ==> log[a].path != log[b].path
  {
    var log := roles + images;
    forall a, b | 0 <= a < b < |log| ensures log[a].path != log[b].path {
      if b < |roles| {
        assert log[a] == roles[a] && log[b] == roles[b];
        DistinctNames(path, names[a], names[b]);
      } else if a < |roles| {
        var j := b - |roles|;
        assert log[a] == roles[a] && log[b] == images[j];
        ImageFileNameNotFixed(classes[j], j);
        DistinctNames(path, names[a], ImageFileName(classes[j], j));
      } else {
        var i, j := a - |roles|, b - |roles|;
        assert log[a] == images[i] && log[b] == images[j];
        if ImageFileName(classes[i], i) == ImageFileName(classes[j], j) {
          ImageFileNameInjective(classes[i], i, classes[j], j);
        }
        DistinctNames(path, ImageFileName(classes[i], i), ImageFileName(classes[j], j));
      }
    }
  }

  /** No two files written for a series share a path: the structure set, plan
      and dose have fixed names no image name equals, and images are told
      apart by their index. */
  lemma SeriesPathsDistinct(data: SeriesData, path: Path, id: Identity, privatetags: bool,
                            uidName: string -> string)
    ensures var log := SeriesResult(data, path, id, privatetags, uidName).log;
            forall a, b :: 0 <= a < b < |log| ==> log[a].path != log[b].path
  {
    var written := WrittenImages(data.images, id, privatetags);
    var n := NamedCount(written, uidName);
    var names := RoleNames(data);
    RoleNamesDistinct(data);
    RoleLogPaths(data, path, id, privatetags);
    var classes := ImageLogPaths(written, n, path, uidName);
    LogPathsDistinct(RoleLog(data, path, id, privatetags), names, ImageLog(written, n, path, uidName), path, classes);
  }

  /** A series written in full writes as many files as it has documents. */
  lemma SeriesCompleteCount(data: SeriesData, path: Path, id: Identity, privatetags: bool,
                            uidName: string -> string)
    requires SeriesResult(data, path, id, privatetags, uidName).completed
    ensures |SeriesResult(data, path, id, privatetags, uidName).log| == DocumentCount(data)
  {
  }

  // The identity every document but the structure set is written with.

  /** A document carries the series' identity: the patient name and ID it
      holds are the minted ones (each when the minted value is non-empty),
      and with `privatetags` it holds no private element. */
  predicate CarriesIdentity(doc: Dataset, id: Identity, privatetags: bool) {
    (PatientName in doc && |id.name| > 0 ==> doc[PatientName] == Str(id.name))
    && (PatientID in doc && |id.patientid| > 0 ==> doc[PatientID] == Str(id.patientid))
    && (privatetags ==> forall k :: k in doc ==> !IsPrivate(k))
  }

  /** A document with the common elements' keys and identity elements carries
      the identity. */
  lemma CommonCarries(d: Dataset, doc: Dataset, id: Identity, privatetags: bool)
    requires doc.Keys == CommonResult(d, id, privatetags).Keys
    requires PatientName in d ==> doc[PatientName] == CommonResult(d, id, privatetags)[PatientName]
    requires PatientID in d ==> doc[PatientID] == CommonResult(d, id, privatetags)[PatientID]
    ensures CarriesIdentity(doc, id, privatetags)
  {
    CommonKeys(d, id, privatetags);
    CommonPrivate(d, id, privatetags);
    if PatientName in d {
      CommonPatientName(d, id, privatetags);
    }
    if PatientID in d {
      CommonPatientID(d, id, privatetags);
    }
  }

  lemma PlanCarries(d: Dataset, id: Identity, privatetags: bool)
    ensures CarriesIdentity(PlanResult(d, id, privatetags), id, privatetags)
  {
    PlanKeys(d, id, privatetags);
    PlanIdentity(d, id, privatetags);
    CommonCarries(d, PlanResult(d, id, privatetags), id, privatetags);
  }

  lemma DoseCarries(d: Dataset, id: Identity, privatetags: bool)
    ensures CarriesIdentity(DoseResult(d, id, privatetags), id, privatetags)
  {
    DoseFacts(d, id, privatetags);
    CommonCarries(d, DoseResult(d, id, privatetags), id, privatetags);
  }

  lemma ImageCarries(d: Dataset, id: Identity, privatetags: bool)
    ensures CarriesIdentity(ImageResult(d, id, privatetags), id, privatetags)
  {
    ImageFacts(d, id, privatetags);
    CommonCarries(d, ImageResult(d, id, privatetags), id, privatetags);
  }

  /** The number of structure-set files a series writes: they come first. */
  function RtssCount(data: SeriesData): nat {
    if data.rtss.Some? then 1 else 0
  }

  /** The plan, the dose and every image of a series share the series'
      identity: each written file after the structure set holds the minted
      name and ID and, with `privatetags`, no private element. The structure
      set keeps its own. */
  lemma SeriesIdentityShared(data: SeriesData, path: Path, id: Identity, privatetags: bool,
                             uidName: string -> string)
    ensures var log := SeriesResult(data, path, id, privatetags, uidName).log;
            RtssCount(data) <= |log|
            && forall a :: RtssCount(data) <= a < |log| ==> CarriesIdentity(log[a].doc, id, privatetags)
  {
    var roles := RoleLog(data, path, id, privatetags);
    var written := WrittenImages(data.images, id, privatetags);
    var n := NamedCount(written, uidName);
    var images := ImageLog(written, n, path, uidName);
    var log := roles + images;
    var after := RoleLogAfterRtss(data, path, id, privatetags);
    forall j | 0 <= j < |images| ensures CarriesIdentity(images[j].doc, id, privatetags) {
      ImageCarries(data.images[j], id, privatetags);
    }
    forall a | RtssCount(data) <= a < |log| ensures CarriesIdentity(log[a].doc, id, privatetags) {
      if a < |roles| {
        assert log[a] == roles[a] == after[a - RtssCount(data)];
      } else {
        assert log[a] == images[a - |roles|];
      }
    }
  }

  /** The role files after the structure set carry the identity. */
  lemma RoleLogAfterRtss(data: SeriesData, path: Path, id: Identity, privatetags: bool)
    returns (after: seq<Saved>)
    ensures var roles := RoleLog(data, path, id, privatetags);
            RtssCount(data) <= |roles| && after == roles[RtssCount(data)..]
            && forall a :: 0 <= a < |after| ==> CarriesIdentity(after[a].doc, id, privatetags)
  {
    var roles := RoleLog(data, path, id, privatetags);
    after := roles[RtssCount(data)..];
    if data.rtplan.Some? {
      PlanCarries(data.rtplan.value, id, privatetags);
    }
    if data.rtdose.Some? {
      DoseCarries(data.rtdose.value, id, privatetags);
    }
  }

  // What stops a series.

  /** Neither the common table nor the image table names the SOP class UID. */
  lemma SopClassUnnamed(id: Identity)
    ensures FillFor(CommonRows(id), SOPClassUID) == None
    ensures FillFor(ImageRows, SOPClassUID) == None
  {
    assert FillFor(StudyRows, SOPClassUID) == None && FillFor(StaffRows, SOPClassUID) == None;
    assert FillFor(DemographicsRows, SOPClassUID) == None && FillFor(ReviewRows, SOPClassUID) == None;
    CommonFillFor(id, SOPClassUID);
  }

  /** Anonymizing an image keeps its SOP class UID, so its storage class and
      the name of its file come from the image as it was read. */
  lemma ImageKeepsStorageClass(d: Dataset, id: Identity, privatetags: bool, uidName: string -> string)
    ensures StorageClass(ImageResult(d, id, privatetags), uidName) == StorageClass(d, uidName)
  {
    SopClassUnnamed(id);
    CommonKeys(d, id, privatetags);
    ImageFacts(d, id, privatetags);
    if SOPClassUID in d {
      var common := CommonResult(d, id, privatetags);
      assert !IsPrivate(SOPClassUID);
      assert SOPClassUID in common;
      assert common[SOPClassUID] == d[SOPClassUID];
      OverwriteUnnamed(common, ImageRows, id, SOPClassUID);
    }
  }

  /** A series is written in full exactly when every one of its images holds
      a SOP class UID. */
  lemma SeriesCompletedIff(data: SeriesData, path: Path, id: Identity, privatetags: bool,
                           uidName: string -> string)
    ensures SeriesResult(data, path, id, privatetags, uidName).completed
        <==> forall j :: 0 <= j < |data.images| ==> StorageClass(data.images[j], uidName).Some?
  {
    var written := WrittenImages(data.images, id, privatetags);
    forall j | 0 <= j < |data.images|
      ensures StorageClass(written[j], uidName) == StorageClass(data.images[j], uidName)
    {
      ImageKeepsStorageClass(data.images[j], id, privatetags, uidName);
    }
  }
}
