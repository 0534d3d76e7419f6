/** One series: its structure set, plan, dose and images anonymized with one
    identity and saved under one directory, as the plugin's
    `AnonymizeDataThread` does. */
module Series {
  import opened DicomData
  import opened Overwrites
  import opened Policy
  import opened FileNames
  import opened Documents

  /** A file path as its list of components. */
  type Path = seq<string>

  /** One `save_as` call: where a document was written and what it held. */
  datatype Saved = Saved(path: Path, doc: Dataset)

  /** The documents of one series. An absent image list and an empty one are
      processed alike, so both are the empty sequence here. */
  datatype SeriesData = SeriesData(
    rtss: Option<Dataset>,
    rtplan: Option<Dataset>,
    rtdose: Option<Dataset>,
    images: seq<Dataset>)

  /** What one series produced: the files written, and whether every document
      was written (false when an image had no storage class to name it by). */
  datatype SeriesOutcome = SeriesOutcome(log: seq<Saved>, completed: bool)

  /** The number of documents of the series: one per role present, one per
      image. */
  function DocumentCount(data: SeriesData): nat {
    (if data.rtss.Some? then 1 else 0) + (if data.rtplan.Some? then 1 else 0)
    + (if data.rtdose.Some? then 1 else 0) + |data.images|
  }

  /** The name of an image's storage class, looked up from its SOP class UID
      in the UID dictionary `uidName`; none when the image has no such UID. */
  function StorageClass(image: Dataset, uidName: string -> string): Option<string> {
    if SOPClassUID in image && image[SOPClassUID].Str? then Some(uidName(image[SOPClassUID].s)) else None
  }

  /** The images of a series, each anonymized. */
  function WrittenImages(images: seq<Dataset>, id: Identity, privatetags: bool): (r: seq<Dataset>)
    ensures |r| == |images|
  {
    seq(|images|, j requires 0 <= j < |images| => ImageResult(images[j], id, privatetags))
  }

  /** The number of leading images that can be named: they are written, and
      the first that cannot be named stops the series. */
  function NamedCount(written: seq<Dataset>, uidName: string -> string): (n: nat)
    ensures n <= |written|
    ensures forall j :: 0 <= j < n ==> StorageClass(written[j], uidName).Some?
    ensures n < |written| ==> StorageClass(written[n], uidName).None?
  {
    if written == [] then 0
    else if StorageClass(written[0], uidName).None? then 0
    else 1 + NamedCount(written[1..], uidName)
  }

  /** The file written for the j-th image, `<modality>.<j>.dcm`. */
  function ImageEntry(written: seq<Dataset>, j: nat, path: Path, uidName: string -> string): Saved
    requires j < |written| && StorageClass(written[j], uidName).Some?
  {
    Saved(path + [ImageFileName(StorageClass(written[j], uidName).value, j)], written[j])
  }

  /** The files written for the first n images. */
  function ImageLog(written: seq<Dataset>, n: nat, path: Path, uidName: string -> string): (r: seq<Saved>)
    requires n <= NamedCount(written, uidName)
    ensures |r| == n
    ensures forall j :: 0 <= j < n ==> r[j] == ImageEntry(written, j, path, uidName)
  {
    if n == 0 then []
    else ImageLog(written, n - 1, path, uidName) + [ImageEntry(written, n - 1, path, uidName)]
  }

  /** The files written for the structure set, plan and dose, in that order. */
  function RoleLog(data: SeriesData, path: Path, id: Identity, privatetags: bool): seq<Saved> {
    (if data.rtss.Some? then [Saved(path + [RtssName], StructureSetResult(data.rtss.value, id))] else [])
    + (if data.rtplan.Some? then [Saved(path + [RtplanName], PlanResult(data.rtplan.value, id, privatetags))] else [])
    + (if data.rtdose.Some? then [Saved(path + [RtdoseName], DoseResult(data.rtdose.value, id, privatetags))] else [])
  }

  /** What anonymizing a series writes: the role documents, then the images up
      to the first that cannot be named, which stops the series. */
  function SeriesResult(data: SeriesData, path: Path, id: Identity, privatetags: bool,
                        uidName: string -> string): SeriesOutcome
  {
    var written := WrittenImages(data.images, id, privatetags);
    var n := NamedCount(written, uidName);
    SeriesOutcome(RoleLog(data, path, id, privatetags) + ImageLog(written, n, path, uidName),
                  n == |data.images|)
  }

  /** Anonymizes and saves every document of a series, under `path`. Returns
      the files written, whether the series was written in full, and the
      number of its documents. */
  method AnonymizeDataThread(data: SeriesData, path: Path, name: string, patientid: string,
                             privatetags: bool, uidName: string -> string)
    returns (log: seq<Saved>, completed: bool, length: nat)
    ensures log == SeriesResult(data, path, Identity(name, patientid), privatetags, uidName).log
    ensures completed == SeriesResult(data, path, Identity(name, patientid), privatetags, uidName).completed
    ensures length == DocumentCount(data)
  {
    length := 0;
    if data.rtss.Some? {
      length := length + 1;
    }
    if data.rtplan.Some? {
      length := length + 1;
    }
    if data.rtdose.Some? {
      length := length + 1;
    }
    length := length + |data.images|;

    var roles := SaveRoles(data, path, name, patientid, privatetags);
    var images;
    images, completed := SaveImages(data.images, path, name, patientid, privatetags, uidName);
    log := roles + images;
  }

  /** The structure set, the plan and the dose, each when present. */
  method SaveRoles(data: SeriesData, path: Path, name: string, patientid: string, privatetags: bool)
    returns (log: seq<Saved>)
    ensures log == RoleLog(data, path, Identity(name, patientid), privatetags)
  {
    ghost var id := Identity(name, patientid);
    log := [];
    if data.rtss.Some? {
      var rtss := AnonymizeStructureSet(data.rtss.value, id);
      log := log + [Saved(path + [RtssName], rtss)];
    }
    if data.rtplan.Some? {
      var rtplan := AnonymizePlan(data.rtplan.value, name, patientid, privatetags);
      log := log + [Saved(path + [RtplanName], rtplan)];
    }
    if data.rtdose.Some? {
      var rtdose := AnonymizeDose(data.rtdose.value, name, patientid, privatetags);
      log := log + [Saved(path + [RtdoseName], rtdose)];
    }
  }

  /** The images, in order, each under `<modality>.<n>.dcm`; an image without a
      SOP class UID stops the series before it is saved. */
  method SaveImages(images: seq<Dataset>, path: Path, name: string, patientid: string, privatetags: bool,
                    uidName: string -> string)
    returns (log: seq<Saved>, completed: bool)
    ensures var written := WrittenImages(images, Identity(name, patientid), privatetags);
            log == ImageLog(written, NamedCount(written, uidName), path, uidName)
            && (completed <==> NamedCount(written, uidName) == |images|)
  {
    ghost var written := WrittenImages(images, Identity(name, patientid), privatetags);
    log := [];
    var n := 0;
    completed := true;
    while n < |images|
      invariant n <= |images|
      invariant forall j :: 0 <= j < n ==> StorageClass(written[j], uidName).Some?
      invariant n <= NamedCount(written, uidName)
      invariant log == ImageLog(written, n, path, uidName)
      invariant completed
      decreases |images| - n
    {
      var image := AnonymizeImage(images[n], name, patientid, privatetags);
      assert image == written[n];
      if !(SOPClassUID in image && image[SOPClassUID].Str?) {
        completed := false;
        break;
      }
      var modality := Lower(Modality(uidName(image[SOPClassUID].s)));
      log := log + [Saved(path + [modality + "." + NatToString(n) + ".dcm"], image)];
      n := n + 1;
    }
    assert n == NamedCount(written, uidName);
  }
}
