/** The batch: every series of the selected patients anonymized in turn, each
    with a freshly minted identity and saved under
    `<base>/<patient>/<study>/<series>`, with one progress report per patient,
    as the plugin's `pluginMenu` does after its dialogs. */
module Batch {
  import opened DicomData
  import opened Overwrites
  import opened Series

  /** The selection, in the order the plugin iterates it: patients by ID,
      their studies by UID, and the series of each study by UID. */
  datatype SeriesNode = SeriesNode(uid: string, data: SeriesData)
  datatype StudyNode = StudyNode(uid: string, series: seq<SeriesNode>)
  datatype PatientNode = PatientNode(id: string, studies: seq<StudyNode>)
  type Selection = seq<PatientNode>

  /** One call of `AnonymizeDataThread`: the directory and the identity. */
  datatype Call = Call(path: Path, id: Identity)

  /** What the batch does that can be observed, in order: a progress report
      (patients begun of patients selected), the directory of a series made
      and the series begun, or a file saved. */
  datatype Event = Progress(done: nat, total: nat) | Enter(call: Call) | Write(saved: Saved)

  /** The state of the batch: what it has done, how many identity strings it
      has minted, and whether it is still running (false once a series stops). */
  datatype Run = Run(trace: seq<Event>, draws: nat, ok: bool)

  /** The steps the batch takes, flattened: a progress report, or one series. */
  datatype Step = Tick(done: nat, total: nat) | Job(path: Path, data: SeriesData)

  /** The identity minted for the k-th series: the 2k-th and (2k+1)-th value
      of the identifier source `mint`, name first. */
  function Minted(mint: nat -> string, k: nat): Identity {
    Identity(mint(2 * k), mint(2 * k + 1))
  }

  /** The saves of a series as events. */
  function Writes(log: seq<Saved>): (r: seq<Event>)
    ensures |r| == |log|
    ensures forall i :: 0 <= i < |log| ==> r[i] == Write(log[i])
  {
    if log == [] then [] else [Write(log[0])] + Writes(log[1..])
  }

  /** What one series does, given its data, directory and identity. */
  type Anonymizer = (SeriesData, Path, Identity) -> SeriesOutcome

  /** The batch's series step: `AnonymizeDataThread` with private elements
      always removed. */
  function Thread(uidName: string -> string): Anonymizer {
    (data: SeriesData, path: Path, id: Identity) => SeriesResult(data, path, id, true, uidName)
  }

  /** One step. A series mints a name and then a patient ID and is handed to
      `anonymize`. */
  function Perform(s: Step, r: Run, mint: nat -> string, anonymize: Anonymizer): Run {
    match s
    case Tick(done, total) => Run(r.trace + [Progress(done, total)], r.draws, r.ok)
    case Job(path, data) =>
      var id := Identity(mint(r.draws), mint(r.draws + 1));
      var o := anonymize(data, path, id);
      Run(r.trace + [Enter(Call(path, id))] + Writes(o.log), r.draws + 2, o.completed)
  }

  /** The steps `t` taken in order from `r`, up to the first series that stops. */
  function Steps(t: seq<Step>, r: Run, mint: nat -> string, anonymize: Anonymizer): Run
    decreases |t|
  {
    if t == [] || !r.ok then r else Steps(t[1..], Perform(t[0], r, mint, anonymize), mint, anonymize)
  }

  /** The number of steps of `t` taken from `r`. */
  function StepsDone(t: seq<Step>, r: Run, mint: nat -> string, anonymize: Anonymizer): (n: nat)
    ensures n <= |t|
    decreases |t|
  {
    if t == [] || !r.ok then 0 else 1 + StepsDone(t[1..], Perform(t[0], r, mint, anonymize), mint, anonymize)
  }

  function SeriesSteps(series: seq<SeriesNode>, dir: Path): seq<Step> {
    if series == [] then []
    else [Job(dir + [series[0].uid], series[0].data)] + SeriesSteps(series[1..], dir)
  }

  function StudySteps(studies: seq<StudyNode>, dir: Path): seq<Step> {
    if studies == [] then []
    else SeriesSteps(studies[0].series, dir + [studies[0].uid]) + StudySteps(studies[1..], dir)
  }

  /** The steps for `patients`, the first being the (k+1)-th of `total`. */
  function PatientSteps(patients: seq<PatientNode>, k: nat, total: nat, base: Path): seq<Step> {
    if patients == [] then []
    else [Tick(k + 1, total)] + StudySteps(patients[0].studies, base + [patients[0].id])
         + PatientSteps(patients[1..], k + 1, total, base)
  }

  /** Every step of the batch, in order. */
  function Plan(selection: Selection, base: Path): seq<Step> {
    PatientSteps(selection, 0, |selection|, base)
  }

  /** What the batch does: the plan, taken from the start. */
  function BatchResult(selection: Selection, base: Path, mint: nat -> string, uidName: string -> string): Run {
    Steps(Plan(selection, base), Run([], 0, true), mint, Thread(uidName))
  }

  /** Steps taken one after the other: `a` and then `b` is `a + b`. */
  lemma {:induction false} StepsAppend(a: seq<Step>, b: seq<Step>, r: Run, mint: nat -> string,
                                       anonymize: Anonymizer)
    ensures Steps(a + b, r, mint, anonymize) == Steps(b, Steps(a, r, mint, anonymize), mint, anonymize)
    decreases |a|
  {
    if a == [] {
      assert a + b == b;
    } else if r.ok {
      assert (a + b)[0] == a[0];
      assert (a + b)[1..] == a[1..] + b;
      StepsAppend(a[1..], b, Perform(a[0], r, mint, anonymize), mint, anonymize);
    }
  }

  /** One series, in directory `path`: the directory made, a name and then a
      patient ID minted, and the series anonymized and saved. */
  method AnonymizeSeries(data: SeriesData, path: Path, trace0: seq<Event>, draws0: nat,
                         mint: nat -> string, uidName: string -> string)
    returns (trace: seq<Event>, draws: nat, ok: bool)
    ensures Run(trace, draws, ok) == Perform(Job(path, data), Run(trace0, draws0, true), mint, Thread(uidName))
  {
    var name := mint(draws0);
    var patientid := mint(draws0 + 1);
    PerformJob(data, path, Run(trace0, draws0, true), mint, Thread(uidName), Identity(name, patientid));
    draws := draws0 + 2;
    trace := trace0 + [Enter(Call(path, Identity(name, patientid)))];
    var log, completed := RunThread(data, path, name, patientid, uidName);
    trace := trace + Writes(log);
    ok := completed;
  }

  /** The series handed to `AnonymizeDataThread`, private elements removed. */
  method RunThread(data: SeriesData, path: Path, name: string, patientid: string, uidName: string -> string)
    returns (log: seq<Saved>, completed: bool)
    ensures Thread(uidName)(data, path, Identity(name, patientid)).log == log
    ensures Thread(uidName)(data, path, Identity(name, patientid)).completed == completed
  {
    var length;
    log, completed, length := AnonymizeDataThread(data, path, name, patientid, true, uidName);
  }

  /** A series step with identity `id`, when `id` is the next one minted. */
  lemma PerformJob(data: SeriesData, path: Path, r: Run, mint: nat -> string, anonymize: Anonymizer,
                   id: Identity)
    requires id == Identity(mint(r.draws), mint(r.draws + 1))
    ensures Perform(Job(path, data), r, mint, anonymize)
         == Run(r.trace + [Enter(Call(path, id))] + Writes(anonymize(data, path, id).log), r.draws + 2,
                anonymize(data, path, id).completed)
  {
  }

  /** The series of one study, each in its own directory under `dir`, with
      the next identity strings from `mint`; stops at a series that stops. */
  method AnonymizeSeriesList(series: seq<SeriesNode>, dir: Path, trace0: seq<Event>, draws0: nat,
                             mint: nat -> string, uidName: string -> string)
    returns (trace: seq<Event>, draws: nat, ok: bool)
    ensures Run(trace, draws, ok) == Steps(SeriesSteps(series, dir), Run(trace0, draws0, true), mint, Thread(uidName))
  {
    trace, draws, ok := trace0, draws0, true;
    var k := 0;
    while k < |series| && ok
      invariant k <= |series|
      invariant Steps(SeriesSteps(series[k..], dir), Run(trace, draws, ok), mint, Thread(uidName))
             == Steps(SeriesSteps(series, dir), Run(trace0, draws0, true), mint, Thread(uidName))
      decreases |series| - k
    {
      var node := series[k];
      ghost var r := Run(trace, draws, ok);
      trace, draws, ok := AnonymizeSeries(node.data, dir + [node.uid], trace, draws, mint, uidName);
      assert Run(trace, draws, ok) == Perform(SeriesSteps(series[k..], dir)[0], r, mint, Thread(uidName));
      assert series[k..][1..] == series[k + 1..];
      k := k + 1;
    }
    if k == |series| {
      assert series[k..] == [];
    }
  }

  /** The studies of one patient, each in its own directory under `dir`. */
  method AnonymizeStudies(studies: seq<StudyNode>, dir: Path, trace0: seq<Event>, draws0: nat,
                          mint: nat -> string, uidName: string -> string)
    returns (trace: seq<Event>, draws: nat, ok: bool)
    ensures Run(trace, draws, ok) == Steps(StudySteps(studies, dir), Run(trace0, draws0, true), mint, Thread(uidName))
  {
    trace, draws, ok := trace0, draws0, true;
    var k := 0;
    while k < |studies| && ok
      invariant k <= |studies|
      invariant Steps(StudySteps(studies[k..], dir), Run(trace, draws, ok), mint, Thread(uidName))
             == Steps(StudySteps(studies, dir), Run(trace0, draws0, true), mint, Thread(uidName))
      decreases |studies| - k
    {
      var study := studies[k];
      ghost var r := Run(trace, draws, ok);
      assert studies[k..][1..] == studies[k + 1..];
      StepsAppend(SeriesSteps(study.series, dir + [study.uid]), StudySteps(studies[k + 1..], dir), r, mint, Thread(uidName));
      trace, draws, ok := AnonymizeSeriesList(study.series, dir + [study.uid], trace, draws, mint, uidName);
      k := k + 1;
    }
    if k == |studies| {
      assert studies[k..] == [];
    }
  }

  /** The batch: for each selected patient, a progress report and then the
      patient's studies, under `base`; a series that stops ends the batch. */
  method PluginMenu(selection: Selection, base: Path, mint: nat -> string, uidName: string -> string)
    returns (trace: seq<Event>, completed: bool)
    ensures trace == BatchResult(selection, base, mint, uidName).trace
    ensures completed == BatchResult(selection, base, mint, uidName).ok
  {
    var draws := 0;
    trace, completed := [], true;
    var length := |selection|;
    var i := 0;
    while i < |selection| && completed
      invariant i <= |selection|
      invariant Steps(PatientSteps(selection[i..], i, length, base), Run(trace, draws, completed), mint, Thread(uidName))
             == BatchResult(selection, base, mint, uidName)
      decreases |selection| - i
    {
      var patient := selection[i];
      var dir := base + [patient.id];
      ghost var r := Run(trace, draws, completed);
      assert selection[i..][1..] == selection[i + 1..];
      StepsAppend([Tick(i + 1, length)] + StudySteps(patient.studies, dir),
                  PatientSteps(selection[i + 1..], i + 1, length, base), r, mint, Thread(uidName));
      StepsAppend([Tick(i + 1, length)], StudySteps(patient.studies, dir), r, mint, Thread(uidName));
      i := i + 1;
      trace := trace + [Progress(i, length)];
      trace, draws, completed := AnonymizeStudies(patient.studies, dir, trace, draws, mint, uidName);
    }
    if i == |selection| {
      assert selection[i..] == [];
    }
  }
}
