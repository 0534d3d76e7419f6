/** What the batch promises: one progress report per patient, counting up to
    the number of patients; a freshly minted identity for every series; and
    every series saved under its own directory, in selection order. */
module BatchFacts {
  import opened DicomData
  import opened Overwrites
  import opened Series
  import opened Batch

  // Views of a trace and of a plan.

  /** The progress reports of a trace, as (done, total) pairs. */
  function Progresses(t: seq<Event>): seq<(nat, nat)> {
    if t == [] then []
    else (if t[0].Progress? then [(t[0].done, t[0].total)] else []) + Progresses(t[1..])
  }

  /** The series calls of a trace. */
  function Calls(t: seq<Event>): seq<Call> {
    if t == [] then []
    else (if t[0].Enter? then [t[0].call] else []) + Calls(t[1..])
  }

  /** The progress reports a plan makes. */
  function Ticks(t: seq<Step>): seq<(nat, nat)> {
    if t == [] then []
    else (if t[0].Tick? then [(t[0].done, t[0].total)] else []) + Ticks(t[1..])
  }

  /** The series directories of a plan, in order. */
  function JobPaths(t: seq<Step>): seq<Path> {
    if t == [] then []
    else (if t[0].Job? then [t[0].path] else []) + JobPaths(t[1..])
  }

  lemma EventsAppend(a: seq<Event>, b: seq<Event>)
    ensures Progresses(a + b) == Progresses(a) + Progresses(b)
    ensures Calls(a + b) == Calls(a) + Calls(b)
  {
    ProgressesAppend(a, b);
    CallsAppend(a, b);
  }

  lemma {:induction false} ProgressesAppend(a: seq<Event>, b: seq<Event>)
    ensures Progresses(a + b) == Progresses(a) + Progresses(b)
    decreases |a|
  {
    if a == [] {
      assert a + b == b;
    } else {
      var head: seq<(nat, nat)> := if a[0].Progress? then [(a[0].done, a[0].total)] else [];
      assert (a + b)[0] == a[0];
      assert (a + b)[1..] == a[1..] + b;
      assert Progresses(a + b) == head + Progresses(a[1..] + b);
      ProgressesAppend(a[1..], b);
      assert head + (Progresses(a[1..]) + Progresses(b)) == (head + Progresses(a[1..])) + Progresses(b);
    }
  }


  lemma {:induction false} CallsAppend(a: seq<Event>, b: seq<Event>)
    ensures Calls(a + b) == Calls(a) + Calls(b)
    decreases |a|
  {
    if a == [] {
      assert a + b == b;
    } else {
      var head: seq<Call> := if a[0].Enter? then [a[0].call] else [];
      assert (a + b)[0] == a[0];
      assert (a + b)[1..] == a[1..] + b;
      assert Calls(a + b) == head + Calls(a[1..] + b);
      CallsAppend(a[1..], b);
      assert head + (Calls(a[1..]) + Calls(b)) == (head + Calls(a[1..])) + Calls(b);
    }
  }


  lemma StepViewsAppend(a: seq<Step>, b: seq<Step>)
    ensures Ticks(a + b) == Ticks(a) + Ticks(b)
    ensures JobPaths(a + b) == JobPaths(a) + JobPaths(b)
  {
    TicksAppend(a, b);
    JobPathsAppend(a, b);
  }

  lemma {:induction false} TicksAppend(a: seq<Step>, b: seq<Step>)
    ensures Ticks(a + b) == Ticks(a) + Ticks(b)
    decreases |a|
  {
    if a == [] {
      assert a + b == b;
    } else {
      var head: seq<(nat, nat)> := if a[0].Tick? then [(a[0].done, a[0].total)] else [];
      assert (a + b)[0] == a[0];
      assert (a + b)[1..] == a[1..] + b;
      assert Ticks(a + b) == head + Ticks(a[1..] + b);
      TicksAppend(a[1..], b);
      assert head + (Ticks(a[1..]) + Ticks(b)) == (head + Ticks(a[1..])) + Ticks(b);
    }
  }


  lemma {:induction false} JobPathsAppend(a: seq<Step>, b: seq<Step>)
    ensures JobPaths(a + b) == JobPaths(a) + JobPaths(b)
    decreases |a|
  {
    if a == [] {
      assert a + b == b;
    } else {
      var head: seq<Path> := if a[0].Job? then [a[0].path] else [];
      assert (a + b)[0] == a[0];
      assert (a + b)[1..] == a[1..] + b;
      assert JobPaths(a + b) == head + JobPaths(a[1..] + b);
      JobPathsAppend(a[1..], b);
      assert head + (JobPaths(a[1..]) + JobPaths(b)) == (head + JobPaths(a[1..])) + JobPaths(b);
    }
  }


  /** Saving files reports no progress and begins no series. */
  lemma {:induction false} WritesAreSaves(log: seq<Saved>)
    ensures Progresses(Writes(log)) == [] && Calls(Writes(log)) == []
    decreases |log|
  {
    if log != [] {
      EventsAppend([Write(log[0])], Writes(log[1..]));
      WritesAreSaves(log[1..]);
    }
  }

  // The invariant of a run.

  /** After the steps `done`, the run has reported exactly their progress,
      begun exactly their series in their directories, the k-th with the k-th
      minted identity, and drawn two identity strings per series. */
  predicate Accounted(r: Run, done: seq<Step>, mint: nat -> string) {
    var calls := Calls(r.trace);
    Progresses(r.trace) == Ticks(done)
    && r.draws == 2 * |calls|
    && |calls| == |JobPaths(done)|
    && forall k :: 0 <= k < |calls| ==> calls[k].id == Minted(mint, k) && calls[k].path == JobPaths(done)[k]
  }

  lemma TickAccounted(d: nat, total: nat, done: seq<Step>, r: Run, mint: nat -> string)
    requires Accounted(r, done, mint)
    ensures Accounted(Run(r.trace + [Progress(d, total)], r.draws, r.ok), done + [Tick(d, total)], mint)
  {
    StepViewsAppend(done, [Tick(d, total)]);
    EventsAppend(r.trace, [Progress(d, total)]);
  }

  /** Beginning a series and then saving files that report no progress and
      begin no series adds that one series call to the trace. */
  lemma EnterThenSaves(trace: seq<Event>, call: Call, saves: seq<Event>)
    requires Progresses(saves) == [] && Calls(saves) == []
    ensures Calls(trace + [Enter(call)] + saves) == Calls(trace) + [call]
    ensures Progresses(trace + [Enter(call)] + saves) == Progresses(trace)
  {
    EventsAppend(trace, [Enter(call)]);
    EventsAppend(trace + [Enter(call)], saves);
    assert Progresses([Enter(call)]) == [] && Calls([Enter(call)]) == [call];
  }

  /** A series step, whose saves `saves` report no progress and begin no
      series, keeps the run accounted for. */
  lemma JobAccounted(path: Path, data: SeriesData, done: seq<Step>, r: Run, mint: nat -> string,
                     saves: seq<Event>, ok: bool)
    requires Accounted(r, done, mint)
    requires Progresses(saves) == [] && Calls(saves) == []
    ensures Accounted(Run(r.trace + [Enter(Call(path, Identity(mint(r.draws), mint(r.draws + 1))))] + saves,
                          r.draws + 2, ok),
                      done + [Job(path, data)], mint)
  {
    var call := Call(path, Identity(mint(r.draws), mint(r.draws + 1)));
    var calls := Calls(r.trace);
    var paths := JobPaths(done);
    EnterThenSaves(r.trace, call, saves);
    StepViewsAppend(done, [Job(path, data)]);
    assert Ticks([Job(path, data)]) == [] && JobPaths([Job(path, data)]) == [path];
    assert JobPaths(done + [Job(path, data)]) == paths + [path];
    var calls2, paths2 := calls + [call], paths + [path];
    forall k | 0 <= k < |calls2| ensures calls2[k].id == Minted(mint, k) && calls2[k].path == paths2[k] {
      if k < |calls| {
        assert calls2[k] == calls[k] && paths2[k] == paths[k];
      } else {
        assert calls2[k] == call && paths2[k] == path;
      }
    }
  }

  lemma PerformAccounted(s: Step, done: seq<Step>, r: Run, mint: nat -> string, anonymize: Anonymizer)
    requires Accounted(r, done, mint)
    ensures Accounted(Perform(s, r, mint, anonymize), done + [s], mint)
  {
    match s
    case Tick(d, total) =>
      TickAccounted(d, total, done, r, mint);
    case Job(path, data) =>
      var o := anonymize(data, path, Identity(mint(r.draws), mint(r.draws + 1)));
      WritesAreSaves(o.log);
      JobAccounted(path, data, done, r, mint, Writes(o.log), o.completed);
  }

  /** Taking steps keeps the run accounted for, with the steps taken added. */
  lemma {:induction false} StepsAccounted(t: seq<Step>, done: seq<Step>, r: Run, mint: nat -> string,
                                          anonymize: Anonymizer)
    requires Accounted(r, done, mint)
    ensures Accounted(Steps(t, r, mint, anonymize), done + t[..StepsDone(t, r, mint, anonymize)], mint)
    ensures Steps(t, r, mint, anonymize).ok ==> StepsDone(t, r, mint, anonymize) == |t|
    decreases |t|
  {
    if t == [] || !r.ok {
      assert done + t[..0] == done;
    } else {
      var next := Perform(t[0], r, mint, anonymize);
      PerformAccounted(t[0], done, r, mint, anonymize);
      StepsAccounted(t[1..], done + [t[0]], next, mint, anonymize);
      var m := StepsDone(t[1..], next, mint, anonymize);
      assert t[..1 + m] == [t[0]] + t[1..][..m];
      assert done + [t[0]] + t[1..][..m] == done + t[..1 + m];
    }
  }

  /** The batch, as far as it got, is accounted for by a prefix of its plan,
      and by all of it when no series stopped. */
  lemma BatchAccounted(selection: Selection, base: Path, mint: nat -> string, uidName: string -> string)
    returns (m: nat)
    ensures m <= |Plan(selection, base)|
    ensures Accounted(BatchResult(selection, base, mint, uidName), Plan(selection, base)[..m], mint)
    ensures BatchResult(selection, base, mint, uidName).ok ==> m == |Plan(selection, base)|
  {
    var plan := Plan(selection, base);
    m := StepsDone(plan, Run([], 0, true), mint, Thread(uidName));
    StepsAccounted(plan, [], Run([], 0, true), mint, Thread(uidName));
    assert [] + plan[..m] == plan[..m];
  }

  // The plan.

  lemma {:induction false} SeriesStepsShape(series: seq<SeriesNode>, dir: Path)
    ensures Ticks(SeriesSteps(series, dir)) == []
    ensures JobPaths(SeriesSteps(series, dir)) == seq(|series|, k requires 0 <= k < |series| => dir + [series[k].uid])
    decreases |series|
  {
    if series != [] {
      var first := Job(dir + [series[0].uid], series[0].data);
      StepViewsAppend([first], SeriesSteps(series[1..], dir));
      SeriesStepsShape(series[1..], dir);
    }
  }

  lemma {:induction false} StudyStepsTicks(studies: seq<StudyNode>, dir: Path)
    ensures Ticks(StudySteps(studies, dir)) == []
    decreases |studies|
  {
    if studies != [] {
      StepViewsAppend(SeriesSteps(studies[0].series, dir + [studies[0].uid]), StudySteps(studies[1..], dir));
      SeriesStepsShape(studies[0].series, dir + [studies[0].uid]);
      StudyStepsTicks(studies[1..], dir);
    }
  }

  lemma {:induction false} PatientStepsTicks(patients: seq<PatientNode>, k: nat, total: nat, base: Path)
    ensures Ticks(PatientSteps(patients, k, total, base))
         == seq(|patients|, i requires 0 <= i < |patients| => (k + i + 1, total))
    decreases |patients|
  {
    if patients != [] {
      var studies := StudySteps(patients[0].studies, base + [patients[0].id]);
      var rest := PatientSteps(patients[1..], k + 1, total, base);
      StepViewsAppend([Tick(k + 1, total)], studies);
      StepViewsAppend([Tick(k + 1, total)] + studies, rest);
      StudyStepsTicks(patients[0].studies, base + [patients[0].id]);
      PatientStepsTicks(patients[1..], k + 1, total, base);
    }
  }

  /** The progress reports `(1, n)`, `(2, n)`, ..., `(n, n)`. */
  function Counted(n: nat): seq<(nat, nat)> {
    seq(n, i requires 0 <= i < n => (i + 1, n))
  }

  /** The batch reports its progress once per patient, before the patient's
      series: `(1, n)`, `(2, n)`, ... up to the patient it stopped in, and up
      to `(n, n)` when no series stopped. */
  lemma BatchProgress(selection: Selection, base: Path, mint: nat -> string, uidName: string -> string)
    ensures Progresses(BatchResult(selection, base, mint, uidName).trace) <= Counted(|selection|)
    ensures BatchResult(selection, base, mint, uidName).ok ==>
              Progresses(BatchResult(selection, base, mint, uidName).trace) == Counted(|selection|)
  {
    var plan := Plan(selection, base);
    var m := BatchAccounted(selection, base, mint, uidName);
    PatientStepsTicks(selection, 0, |selection|, base);
    assert Ticks(plan) == Counted(|selection|);
    assert plan == plan[..m] + plan[m..];
    StepViewsAppend(plan[..m], plan[m..]);
    var done := Ticks(plan[..m]);
    assert Ticks(plan) == done + Ticks(plan[m..]);
    assert done == Ticks(plan)[..|done|];
  }

  /** The k-th series of the batch is anonymized with the k-th minted identity:
      each series gets a name and an ID of its own. */
  lemma BatchIdentities(selection: Selection, base: Path, mint: nat -> string, uidName: string -> string)
    ensures var calls := Calls(BatchResult(selection, base, mint, uidName).trace);
            forall k :: 0 <= k < |calls| ==> calls[k].id == Minted(mint, k)
  {
    var m := BatchAccounted(selection, base, mint, uidName);
  }

  /** With an identifier source that never repeats itself, no two series of
      the batch share a name or an ID, and no name is ever any series' ID. */
  lemma BatchFreshIdentities(selection: Selection, base: Path, mint: nat -> string, uidName: string -> string)
    requires forall a: nat, b: nat :: mint(a) == mint(b) ==> a == b
    ensures var calls := Calls(BatchResult(selection, base, mint, uidName).trace);
            (forall a, b :: 0 <= a < b < |calls| ==>
               calls[a].id.name != calls[b].id.name && calls[a].id.patientid != calls[b].id.patientid)
            && (forall a, b :: 0 <= a < |calls| && 0 <= b < |calls| ==> calls[a].id.name != calls[b].id.patientid)
  {
    BatchIdentities(selection, base, mint, uidName);
  }

  /** The batch begins the series of the selection in order, each in the
      directory the plan gives it, and all of them when no series stopped. */
  lemma BatchDirectories(selection: Selection, base: Path, mint: nat -> string, uidName: string -> string)
    ensures var calls := Calls(BatchResult(selection, base, mint, uidName).trace);
            var paths := JobPaths(Plan(selection, base));
            |calls| <= |paths|
            && (forall k :: 0 <= k < |calls| ==> calls[k].path == paths[k])
            && (BatchResult(selection, base, mint, uidName).ok ==> |calls| == |paths|)
  {
    var plan := Plan(selection, base);
    var m := BatchAccounted(selection, base, mint, uidName);
    assert plan == plan[..m] + plan[m..];
    StepViewsAppend(plan[..m], plan[m..]);
  }

  // One directory per series.

  predicate Distinct<T(==)>(s: seq<T>) {
    forall a, b :: 0 <= a < b < |s| ==> s[a] != s[b]
  }

  function SeriesUids(series: seq<SeriesNode>): seq<string> {
    seq(|series|, k requires 0 <= k < |series| => series[k].uid)
  }

  function StudyUids(studies: seq<StudyNode>): seq<string> {
    seq(|studies|, j requires 0 <= j < |studies| => studies[j].uid)
  }

  function PatientIds(patients: seq<PatientNode>): seq<string> {
    seq(|patients|, i requires 0 <= i < |patients| => patients[i].id)
  }

  /** The selection is keyed as the plugin's nested dictionaries are: patient
      IDs, the study UIDs of a patient and the series UIDs of a study are
      each without repetition. */
  predicate UniqueStudies(studies: seq<StudyNode>) {
    Distinct(StudyUids(studies)) && forall j :: 0 <= j < |studies| ==> Distinct(SeriesUids(studies[j].series))
  }

  predicate UniqueKeys(selection: Selection) {
    Distinct(PatientIds(selection)) && forall i :: 0 <= i < |selection| ==> UniqueStudies(selection[i].studies)
  }

  lemma DistinctAppend<T>(a: seq<T>, b: seq<T>)
    requires Distinct(a) && Distinct(b)
    requires forall x, y :: 0 <= x < |a| && 0 <= y < |b| ==> a[x] != b[y]
    ensures Distinct(a + b)
  {
    var c := a + b;
    forall x, y | 0 <= x < y < |c| ensures c[x] != c[y] {
      if y < |a| {
        assert c[x] == a[x] && c[y] == a[y];
      } else if x < |a| {
        assert c[x] == a[x] && c[y] == b[y - |a|];
      } else {
        assert c[x] == b[x - |a|] && c[y] == b[y - |a|];
      }
    }
  }

  /** The series directories of one study lie two levels below `dir`, in the
      study's own entry, and no two coincide. */
  lemma OneStudyPaths(study: StudyNode, dir: Path)
    requires Distinct(SeriesUids(study.series))
    ensures var paths := JobPaths(SeriesSteps(study.series, dir + [study.uid]));
            Distinct(paths)
            && forall q :: 0 <= q < |paths| ==>
                 |paths[q]| == |dir| + 2 && paths[q][..|dir|] == dir && paths[q][|dir|] == study.uid
  {
    var paths := JobPaths(SeriesSteps(study.series, dir + [study.uid]));
    SeriesStepsShape(study.series, dir + [study.uid]);
    forall x | 0 <= x < |paths|
      ensures |paths[x]| == |dir| + 2 && paths[x][..|dir|] == dir && paths[x][|dir|] == study.uid
      ensures paths[x][|dir| + 1] == SeriesUids(study.series)[x]
    {
      assert paths[x] == dir + [study.uid] + [study.series[x].uid];
    }
  }

  /** The series directories of one patient's studies lie two levels below
      `dir`, under a study of the patient, and no two coincide. */
  lemma {:induction false} StudyStepsPaths(studies: seq<StudyNode>, dir: Path)
    requires UniqueStudies(studies)
    ensures var paths := JobPaths(StudySteps(studies, dir));
            Distinct(paths)
            && forall q :: 0 <= q < |paths| ==>
                 |paths[q]| == |dir| + 2 && paths[q][..|dir|] == dir && paths[q][|dir|] in StudyUids(studies)
    decreases |studies|
  {
    if studies != [] {
      var first := studies[0];
      var a := JobPaths(SeriesSteps(first.series, dir + [first.uid]));
      var b := JobPaths(StudySteps(studies[1..], dir));
      StepViewsAppend(SeriesSteps(first.series, dir + [first.uid]), StudySteps(studies[1..], dir));
      OneStudyPaths(first, dir);
      assert StudyUids(studies[1..]) == StudyUids(studies)[1..];
      assert forall j :: 0 <= j < |studies[1..]| ==> studies[1..][j] == studies[j + 1];
      StudyStepsPaths(studies[1..], dir);
      HeadNotInTail(StudyUids(studies));
      assert first.uid !in StudyUids(studies[1..]);
      forall x, y | 0 <= x < |a| && 0 <= y < |b| ensures a[x] != b[y] {
        assert a[x][|dir|] != b[y][|dir|];
      }
      DistinctAppend(a, b);
      assert StudyUids(studies)[0] == first.uid;
    }
  }

  /** A path under `dir + [x]` lies under `dir`, in its entry `x`. */
  lemma UnderDirectory(p: Path, dir: Path, x: string)
    requires |p| > |dir| && p[..|dir| + 1] == dir + [x]
    ensures p[..|dir|] == dir && p[|dir|] == x
  {
    assert p[..|dir|] == p[..|dir| + 1][..|dir|];
    assert p[|dir|] == p[..|dir| + 1][|dir|];
  }

  /** The series directories of one patient lie three levels below `base`,
      in the patient's own entry, and no two coincide. */
  lemma OnePatientPaths(patient: PatientNode, base: Path)
    requires UniqueStudies(patient.studies)
    ensures var paths := JobPaths(StudySteps(patient.studies, base + [patient.id]));
            Distinct(paths)
            && forall q :: 0 <= q < |paths| ==>
                 |paths[q]| == |base| + 3 && paths[q][..|base|] == base && paths[q][|base|] == patient.id
  {
    var paths := JobPaths(StudySteps(patient.studies, base + [patient.id]));
    StudyStepsPaths(patient.studies, base + [patient.id]);
    forall q | 0 <= q < |paths| ensures paths[q][..|base|] == base && paths[q][|base|] == patient.id {
      UnderDirectory(paths[q], base, patient.id);
    }
  }

  /** The directories of a patient's series come before those of the
      patients after it. */
  lemma PatientStepsSplit(patients: seq<PatientNode>, k: nat, total: nat, base: Path)
    requires patients != []
    ensures JobPaths(PatientSteps(patients, k, total, base))
         == JobPaths(StudySteps(patients[0].studies, base + [patients[0].id]))
            + JobPaths(PatientSteps(patients[1..], k + 1, total, base))
  {
    var studies := StudySteps(patients[0].studies, base + [patients[0].id]);
    var rest := PatientSteps(patients[1..], k + 1, total, base);
    StepViewsAppend([Tick(k + 1, total)], studies);
    StepViewsAppend([Tick(k + 1, total)] + studies, rest);
    assert JobPaths([Tick(k + 1, total)]) == [];
  }

  lemma HeadNotInTail<T>(s: seq<T>)
    requires Distinct(s) && |s| > 0
    ensures s[0] !in s[1..]
  {
    forall j | 0 <= j < |s| - 1 ensures s[1..][j] != s[0] {
      assert s[1..][j] == s[j + 1];
    }
  }

  /** The series directories of the batch lie three levels below `base`,
      under a selected patient, and no two coincide. */
  lemma {:induction false} PatientStepsPaths(patients: seq<PatientNode>, k: nat, total: nat, base: Path)
    requires UniqueKeys(patients)
    ensures var paths := JobPaths(PatientSteps(patients, k, total, base));
            Distinct(paths)
            && forall q :: 0 <= q < |paths| ==>
                 |paths[q]| == |base| + 3 && paths[q][..|base|] == base && paths[q][|base|] in PatientIds(patients)
    decreases |patients|
  {
    if patients != [] {
      var first := patients[0];
      var a := JobPaths(StudySteps(first.studies, base + [first.id]));
      var b := JobPaths(PatientSteps(patients[1..], k + 1, total, base));
      PatientStepsSplit(patients, k, total, base);
      OnePatientPaths(first, base);
      assert PatientIds(patients[1..]) == PatientIds(patients)[1..];
      assert forall i :: 0 <= i < |patients[1..]| ==> patients[1..][i] == patients[i + 1];
      PatientStepsPaths(patients[1..], k + 1, total, base);
      HeadNotInTail(PatientIds(patients));
      assert first.id !in PatientIds(patients[1..]);
      forall x, y | 0 <= x < |a| && 0 <= y < |b| ensures a[x] != b[y] {
        assert a[x][|base|] != b[y][|base|];
      }
      DistinctAppend(a, b);
      assert PatientIds(patients)[0] == first.id;
    }
  }

  // Where each directory lies.

  /** `p` is `dir/<study>/<series>` for a series of one of `studies`. */
  predicate InStudies(p: Path, dir: Path, studies: seq<StudyNode>) {
    exists j, k :: 0 <= j < |studies| && 0 <= k < |studies[j].series|
                   && p == dir + [studies[j].uid, studies[j].series[k].uid]
  }

  /** `p` is `base/<patient>/<study>/<series>` for a series of a study of
      one of `patients`. */
  predicate InSelection(p: Path, base: Path, patients: seq<PatientNode>) {
    exists i :: 0 <= i < |patients| && InStudies(p, base + [patients[i].id], patients[i].studies)
  }

  /** Each series directory of a patient's studies is `dir/<study>/<series>`
      for one of their series. */
  lemma {:induction false} StudyStepsWithin(studies: seq<StudyNode>, dir: Path)
    ensures forall q :: 0 <= q < |JobPaths(StudySteps(studies, dir))| ==>
              InStudies(JobPaths(StudySteps(studies, dir))[q], dir, studies)
    decreases |studies|
  {
    if studies != [] {
      var first := studies[0];
      var tail := studies[1..];
      var a := JobPaths(SeriesSteps(first.series, dir + [first.uid]));
      var b := JobPaths(StudySteps(tail, dir));
      StepViewsAppend(SeriesSteps(first.series, dir + [first.uid]), StudySteps(tail, dir));
      SeriesStepsShape(first.series, dir + [first.uid]);
      StudyStepsWithin(tail, dir);
      var paths := a + b;
      forall q | 0 <= q < |paths| ensures InStudies(paths[q], dir, studies) {
        if q < |a| {
          assert paths[q] == dir + [first.uid] + [first.series[q].uid];
          assert paths[q] == dir + [studies[0].uid, studies[0].series[q].uid];
        } else {
          assert paths[q] == b[q - |a|];
          assert InStudies(b[q - |a|], dir, tail);
          var j, k :| 0 <= j < |tail| && 0 <= k < |tail[j].series|
                      && b[q - |a|] == dir + [tail[j].uid, tail[j].series[k].uid];
          assert tail[j] == studies[j + 1];
        }
      }
    }
  }

  /** Every series of a patient's studies has its directory
      `dir/<study>/<series>` among the series directories. */
  lemma {:induction false} StudyStepsCover(studies: seq<StudyNode>, dir: Path)
    ensures var paths := JobPaths(StudySteps(studies, dir));
            forall j, k :: 0 <= j < |studies| && 0 <= k < |studies[j].series| ==>
              dir + [studies[j].uid, studies[j].series[k].uid] in paths
    decreases |studies|
  {
    if studies != [] {
      var first := studies[0];
      var tail := studies[1..];
      var a := JobPaths(SeriesSteps(first.series, dir + [first.uid]));
      var b := JobPaths(StudySteps(tail, dir));
      StepViewsAppend(SeriesSteps(first.series, dir + [first.uid]), StudySteps(tail, dir));
      SeriesStepsShape(first.series, dir + [first.uid]);
      StudyStepsCover(tail, dir);
      var paths := a + b;
      forall j, k | 0 <= j < |studies| && 0 <= k < |studies[j].series|
        ensures dir + [studies[j].uid, studies[j].series[k].uid] in paths
      {
        var p := dir + [studies[j].uid, studies[j].series[k].uid];
        if j == 0 {
          assert a[k] == dir + [first.uid] + [first.series[k].uid] == p;
          assert paths[k] == a[k];
        } else {
          assert tail[j - 1] == studies[j];
          assert p in b;
          var y :| 0 <= y < |b| && b[y] == p;
          assert paths[|a| + y] == p;
        }
      }
    }
  }

  /** The series directories of the batch are the
      `base/<patient>/<study>/<series>` of the selected series: each
      directory is one of them, and each of them is a directory. */
  lemma {:induction false} PatientStepsLocated(patients: seq<PatientNode>, k: nat, total: nat, base: Path)
    ensures var paths := JobPaths(PatientSteps(patients, k, total, base));
            (forall q :: 0 <= q < |paths| ==> InSelection(paths[q], base, patients))
            && (forall i, j, s :: (0 <= i < |patients| && 0 <= j < |patients[i].studies|
                                   && 0 <= s < |patients[i].studies[j].series|) ==>
                  base + [patients[i].id] + [patients[i].studies[j].uid, patients[i].studies[j].series[s].uid] in paths)
    decreases |patients|
  {
    if patients != [] {
      var first := patients[0];
      var tail := patients[1..];
      var a := JobPaths(StudySteps(first.studies, base + [first.id]));
      var b := JobPaths(PatientSteps(tail, k + 1, total, base));
      PatientStepsSplit(patients, k, total, base);
      StudyStepsWithin(first.studies, base + [first.id]);
      StudyStepsCover(first.studies, base + [first.id]);
      PatientStepsLocated(tail, k + 1, total, base);
      var paths := a + b;
      forall q | 0 <= q < |paths| ensures InSelection(paths[q], base, patients) {
        if q < |a| {
          assert paths[q] == a[q];
          assert InStudies(paths[q], base + [patients[0].id], patients[0].studies);
        } else {
          assert paths[q] == b[q - |a|];
          var i :| 0 <= i < |tail| && InStudies(b[q - |a|], base + [tail[i].id], tail[i].studies);
          assert tail[i] == patients[i + 1];
        }
      }
      forall i, j, s | 0 <= i < |patients| && 0 <= j < |patients[i].studies|
                       && 0 <= s < |patients[i].studies[j].series|
        ensures base + [patients[i].id] + [patients[i].studies[j].uid, patients[i].studies[j].series[s].uid] in paths
      {
        var p := base + [patients[i].id] + [patients[i].studies[j].uid, patients[i].studies[j].series[s].uid];
        if i == 0 {
          assert p in a;
        } else {
          assert tail[i - 1] == patients[i];
          assert p in b;
        }
      }
    }
  }

  /** Each series directory of the batch is `base/<patient>/<study>/<series>`
      for a series of the selection, and every series of the selection has
      its directory in the plan. */
  lemma PlanPathsLocated(selection: Selection, base: Path)
    ensures var paths := JobPaths(Plan(selection, base));
            (forall q :: 0 <= q < |paths| ==> InSelection(paths[q], base, selection))
            && (forall i, j, s :: (0 <= i < |selection| && 0 <= j < |selection[i].studies|
                                   && 0 <= s < |selection[i].studies[j].series|) ==>
                  base + [selection[i].id] + [selection[i].studies[j].uid, selection[i].studies[j].series[s].uid] in paths)
  {
    assert Plan(selection, base) == PatientSteps(selection, 0, |selection|, base);
    PatientStepsLocated(selection, 0, |selection|, base);
  }

  /** With the selection keyed as the plugin's dictionaries are, no two series
      of the batch share a directory, and each lies at
      `<base>/<patient>/<study>/<series>` for a series of the selection. */
  lemma PlanPathsDistinct(selection: Selection, base: Path)
    requires UniqueKeys(selection)
    ensures var paths := JobPaths(Plan(selection, base));
            Distinct(paths)
            && forall q :: 0 <= q < |paths| ==>
                 |paths[q]| == |base| + 3 && paths[q][..|base|] == base && paths[q][|base|] in PatientIds(selection)
                 && InSelection(paths[q], base, selection)
  {
    PatientStepsPaths(selection, 0, |selection|, base);
    PlanPathsLocated(selection, base);
  }

  /** One patient with one study of one series: one progress report and one
      directory, `<base>/P/S/X`. */
  lemma PlanExample(base: Path, data: SeriesData)
    ensures var plan := Plan([PatientNode("P", [StudyNode("S", [SeriesNode("X", data)])])], base);
            Ticks(plan) == [(1, 1)] && JobPaths(plan) == [base + ["P", "S", "X"]]
  {
    var series := [SeriesNode("X", data)];
    var studies := [StudyNode("S", series)];
    var selection := [PatientNode("P", studies)];
    var job := Job(base + ["P"] + ["S"] + ["X"], data);
    assert series[1..] == [] && studies[1..] == [] && selection[1..] == [];
    assert SeriesSteps(series, base + ["P"] + ["S"]) == [job];
    assert StudySteps(studies, base + ["P"]) == [job];
    assert PatientSteps(selection[1..], 1, 1, base) == [];
    var plan := Plan(selection, base);
    assert plan == [Tick(1, 1)] + [job] + [];
    assert plan[1..] == [job] && plan[1..][1..] == [];
    assert Ticks([job]) == [] && JobPaths([job]) == [job.path];
    assert base + ["P"] + ["S"] + ["X"] == base + ["P", "S", "X"];
  }
}
