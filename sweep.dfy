/**
 * The preliminary architecture sweep of run.py. For every learner, every
 * hidden size and every layer count (layer count varying fastest) one run is
 * derived: its identifier, its directory and files, the amended shared
 * configuration and its run script; the filesystem is an abstract set of the
 * paths that exist.
 */
module Sweep {
  import opened PathText
  import opened Sequences

  /** A configuration value as it is dumped to YAML. */
  datatype Value = Str(s: string) | Int(i: int) | Dict(entries: map<string, Value>)

  /** The settable folders at the head of the script. */
  datatype Settings = Settings(runDir: string, sourcesDir: string, venvDir: string)

  /** The value lists one learner is swept over: its "hidden_size" and "num_layers" entries. */
  datatype Network = Network(hiddenSizes: seq<int>, numLayers: seq<int>)

  datatype Learner = Learner(name: string, network: Network)

  /** The (learner, hidden size, layer count) combination one iteration of the sweep handles. */
  datatype Run = Run(name: string, lsize: int, nl: int)

  // ---------------------------------------------------------------------
  // Identifiers, paths and configuration of one run
  // ---------------------------------------------------------------------

  /** The run identifier `name_lsize_nl`. */
  function RunId(name: string, lsize: int, nl: int): string
  {
    name + "_" + IntToString(lsize) + "_" + IntToString(nl)
  }

  /** The "learner" entry written for a run; its prefix is "mlp" for every learner. */
  function LearnerSpec(lsize: int, nl: int): string
  {
    "mlp," + IntToString(lsize) + "," + IntToString(nl)
  }

  /**
   * The identifier determines name, hidden size and layer count: the decimal
   * texts hold no underscore, so the last two underscores separate them,
   * whatever the name holds.
   */
  lemma RunIdInjective(n1: string, h1: int, l1: int, n2: string, h2: int, l2: int)
    requires RunId(n1, h1, l1) == RunId(n2, h2, l2)
    ensures n1 == n2 && h1 == h2 && l1 == l2
  {
    var a1, b1 := IntToString(h1), IntToString(l1);
    var a2, b2 := IntToString(h2), IntToString(l2);
    SplitAtLastSeparator(n1 + "_" + a1, b1, n2 + "_" + a2, b2, '_');
    SplitAtLastSeparator(n1, a1, n2, a2, '_');
    IntToStringInjective(h1, h2);
    IntToStringInjective(l1, l2);
  }

  /** The first line of the run script: activate the virtual environment. */
  function SourceLine(venvDir: string): string
  {
    "source \"" + venvDir + "/bin/activate\""
  }

  /** The second line: change to the sources folder. */
  function CdLine(sourcesDir: string): string
  {
    "cd \"" + sourcesDir + "\""
  }

  /** The last line: run the pipeline's entry point on the run's configuration. */
  function PythonLine(sourcesDir: string, confPath: string): string
  {
    "python3 \"" + Join(sourcesDir, "main.py") + "\" --config_file \"" + confPath + "\""
  }

  /**
   * The run script as the script writes it: the activation text is not
   * terminated by a newline, so it shares its line with the `cd` command.
   */
  function ScriptTextAsWritten(s: Settings, confPath: string): string
  {
    (if s.venvDir != "" then SourceLine(s.venvDir) else "")
    + CdLine(s.sourcesDir) + "\n" + PythonLine(s.sourcesDir, confPath)
  }

  /** The run script with the activation on a line of its own. */
  function ScriptText(s: Settings, confPath: string): string
  {
    (if s.venvDir != "" then SourceLine(s.venvDir) + "\n" else "")
    + CdLine(s.sourcesDir) + "\n" + PythonLine(s.sourcesDir, confPath)
  }

  /** The script starts with `source ` exactly when a virtual environment is configured. */
  lemma ScriptActivates(s: Settings, confPath: string)
    ensures s.venvDir != "" <==> |ScriptText(s, confPath)| >= 7 && ScriptText(s, confPath)[..7] == "source "
  {
    var t := ScriptText(s, confPath);
    if s.venvDir == "" {
      assert t[0] == 'c';
    } else {
      assert t[..7] == SourceLine(s.venvDir)[..7] == "source ";
    }
  }

  /** The lines of a text: the pieces between newline characters. */
  function Lines(t: string): (r: seq<string>)
    ensures |r| >= 1
  {
    if t == [] then [""]
    else
      var rest := Lines(t[1..]);
      if t[0] == '\n' then [""] + rest else [[t[0]] + rest[0]] + rest[1..]
  }

  lemma {:induction false} LinesOfLine(a: string)
    requires '\n' !in a
    ensures Lines(a) == [a]
  {
    if a != [] {
      LinesOfLine(a[1..]);
      assert [a[0]] + a[1..] == a;
    }
  }

  lemma {:induction false} LinesAfterLine(a: string, b: string)
    requires '\n' !in a
    ensures Lines(a + "\n" + b) == [a] + Lines(b)
  {
    if a == [] {
      assert (a + "\n" + b)[1..] == b;
    } else {
      LinesAfterLine(a[1..], b);
      assert (a + "\n" + b)[1..] == a[1..] + "\n" + b;
      assert [a[0]] + a[1..] == a;
    }
  }

  /** Two newline-free lines joined by a newline split back into those two lines. */
  lemma LinesOfTwo(a: string, b: string)
    requires '\n' !in a && '\n' !in b
    ensures Lines(a + "\n" + b) == [a, b]
  {
    LinesOfLine(b);
    LinesAfterLine(a, b);
  }

  /** Three newline-free lines joined by newlines split back into those three lines. */
  lemma LinesOfThree(a: string, b: string, c: string)
    requires '\n' !in a && '\n' !in b && '\n' !in c
    ensures Lines(a + "\n" + b + "\n" + c) == [a, b, c]
  {
    LinesOfTwo(b, c);
    assert a + "\n" + b + "\n" + c == a + "\n" + (b + "\n" + c);
    LinesAfterLine(a, b + "\n" + c);
  }

  /** None of the script's lines holds a newline of its own. */
  lemma ScriptPartsSingleLine(s: Settings, confPath: string)
    requires '\n' !in s.venvDir && '\n' !in s.sourcesDir && '\n' !in confPath
    ensures '\n' !in SourceLine(s.venvDir) && '\n' !in CdLine(s.sourcesDir)
    ensures '\n' !in PythonLine(s.sourcesDir, confPath)
  {
    assert '\n' !in Join(s.sourcesDir, "main.py");
  }

  /**
   * The run script holds the optional activation line, then the `cd` line,
   * then the pipeline invocation, each on its own line.
   */
  lemma ScriptLines(s: Settings, confPath: string)
    requires '\n' !in s.venvDir && '\n' !in s.sourcesDir && '\n' !in confPath
    ensures Lines(ScriptText(s, confPath))
      == (if s.venvDir != "" then [SourceLine(s.venvDir)] else [])
         + [CdLine(s.sourcesDir), PythonLine(s.sourcesDir, confPath)]
  {
    var src, cd, py := SourceLine(s.venvDir), CdLine(s.sourcesDir), PythonLine(s.sourcesDir, confPath);
    ScriptPartsSingleLine(s, confPath);
    if s.venvDir != "" {
      assert ScriptText(s, confPath) == src + "\n" + cd + "\n" + py;
      LinesOfThree(src, cd, py);
    } else {
      assert ScriptText(s, confPath) == cd + "\n" + py;
      LinesOfTwo(cd, py);
    }
  }

  /**
   * As written, a configured virtual environment leaves the script with two
   * lines, the first of which runs `source` on the activation path with the
   * `cd` command glued to it.
   */
  lemma ScriptAsWrittenMergesLines(s: Settings, confPath: string)
    requires '\n' !in s.venvDir && '\n' !in s.sourcesDir && '\n' !in confPath
    requires s.venvDir != ""
    ensures Lines(ScriptTextAsWritten(s, confPath))
      == [SourceLine(s.venvDir) + CdLine(s.sourcesDir), PythonLine(s.sourcesDir, confPath)]
    ensures |Lines(ScriptTextAsWritten(s, confPath))| == |Lines(ScriptText(s, confPath))| - 1
  {
    var src, cd, py := SourceLine(s.venvDir), CdLine(s.sourcesDir), PythonLine(s.sourcesDir, confPath);
    ScriptPartsSingleLine(s, confPath);
    assert ScriptTextAsWritten(s, confPath) == (src + cd) + "\n" + py;
    LinesOfTwo(src + cd, py);
    ScriptLines(s, confPath);
  }

  /** With a virtual environment the as-written script lacks the corrected script's first newline. */
  lemma ScriptAsWrittenDiffers(s: Settings, confPath: string)
    requires s.venvDir != ""
    ensures |ScriptTextAsWritten(s, confPath)| + 1 == |ScriptText(s, confPath)|
    ensures ScriptTextAsWritten(s, confPath) != ScriptText(s, confPath)
  {
  }

  /** Without a virtual environment the as-written and the corrected script agree. */
  lemma ScriptAsWrittenWithoutVenv(s: Settings, confPath: string)
    requires s.venvDir == ""
    ensures ScriptTextAsWritten(s, confPath) == ScriptText(s, confPath)
  {
  }

  /** The directory of a run: the run folder joined with the run's identifier. */
  function ExperimentDir(s: Settings, r: Run): string
  {
    Join(s.runDir, RunId(r.name, r.lsize, r.nl))
  }

  function CompletedFile(s: Settings, r: Run): string { Join(ExperimentDir(s, r), "completed") }
  function LogDir(s: Settings, r: Run): string { Join(ExperimentDir(s, r), "logs") }
  function ResultsFolder(s: Settings, r: Run): string { Join(ExperimentDir(s, r), "results") }
  function ConfPath(s: Settings, r: Run): string { Join(ExperimentDir(s, r), "config.yml") }
  function ScriptPath(s: Settings, r: Run): string { Join(ExperimentDir(s, r), "run.sh") }

  /** The experiment directory ends in the last digit of the layer count, never in a separator. */
  lemma ExperimentDirEnd(s: Settings, r: Run)
    ensures |ExperimentDir(s, r)| > 0 && ExperimentDir(s, r)[|ExperimentDir(s, r)| - 1] != '/'
    ensures ExperimentDir(s, r)[|ExperimentDir(s, r)| - 1] == IntToString(r.nl)[|IntToString(r.nl)| - 1]
  {
    var id := RunId(r.name, r.lsize, r.nl);
    var nlText := IntToString(r.nl);
    RunIdLast(r.name, r.lsize, r.nl);
    JoinLast(s.runDir, id);
    assert nlText[|nlText| - 1] in nlText;
  }

  /** The identifier ends with the last character of the layer count's text. */
  lemma RunIdLast(name: string, lsize: int, nl: int)
    ensures |RunId(name, lsize, nl)| > 0
    ensures RunId(name, lsize, nl)[|RunId(name, lsize, nl)| - 1] == IntToString(nl)[|IntToString(nl)| - 1]
  {
    var nlText := IntToString(nl);
    var head := name + "_" + IntToString(lsize) + "_";
    assert RunId(name, lsize, nl) == head + nlText;
  }

  /**
   * The marker, the log and results folders, the configuration file and the
   * script sit directly inside the run's experiment directory.
   */
  lemma RunLayout(s: Settings, r: Run)
    ensures CompletedFile(s, r) == ExperimentDir(s, r) + "/completed"
    ensures LogDir(s, r) == ExperimentDir(s, r) + "/logs"
    ensures ResultsFolder(s, r) == ExperimentDir(s, r) + "/results"
    ensures ConfPath(s, r) == ExperimentDir(s, r) + "/config.yml"
    ensures ScriptPath(s, r) == ExperimentDir(s, r) + "/run.sh"
  {
    ExperimentDirEnd(s, r);
  }

  /** The paths an iteration leaves behind: its directory, configuration, script and marker. */
  function Created(s: Settings, r: Run): set<string>
  {
    {ExperimentDir(s, r), ConfPath(s, r), ScriptPath(s, r), CompletedFile(s, r)}
  }

  /** The paths a sequence of iterations leaves behind. */
  function CreatedAll(s: Settings, runs: seq<Run>): set<string>
  {
    UnionOver(CreatedOf(s), runs)
  }

  function CreatedOf(s: Settings): Run -> set<string>
  {
    r => Created(s, r)
  }

  /** The keys every iteration overwrites in the shared configuration. */
  const AmendedKeys: set<string> := {"learner", "log_dir", "results_folder"}

  /** The configuration the script starts from. */
  function BaseConf(sourcesDir: string): (c: map<string, Value>)
    ensures c.Keys == {"dataset", "embedding", "aggregation", "train", "log_level", "options", "serialization_dir"}
    ensures c.Keys !! AmendedKeys
    ensures c["serialization_dir"] == Str(Join(sourcesDir, "serializations_prelim"))
  {
    map[
      "dataset" := Str("20newsgroups"),
      "embedding" := Str("glove,50"),
      "aggregation" := Str("avg"),
      "train" := Dict(map["epochs" := Int(50), "folds" := Int(3), "batch_size" := Int(50)]),
      "log_level" := Str("info"),
      "options" := Dict(map["data_limit" := Int(100)]),
      "serialization_dir" := Str(Join(sourcesDir, "serializations_prelim"))
    ]
  }

  /** The shared configuration after an iteration amended it for run `r`. */
  function Amend(s: Settings, c: map<string, Value>, r: Run): map<string, Value>
  {
    c["learner" := Str(LearnerSpec(r.lsize, r.nl))]
     ["log_dir" := Str(LogDir(s, r))]
     ["results_folder" := Str(ResultsFolder(s, r))]
  }

  /**
   * Amending adds exactly the three per-run keys, sets them from the run and
   * keeps every other entry.
   */
  lemma AmendEntries(s: Settings, c: map<string, Value>, r: Run)
    ensures Amend(s, c, r).Keys == c.Keys + AmendedKeys
    ensures forall k :: k in c && k !in AmendedKeys ==> Amend(s, c, r)[k] == c[k]
    ensures Amend(s, c, r)["learner"] == Str(LearnerSpec(r.lsize, r.nl))
    ensures Amend(s, c, r)["log_dir"] == Str(LogDir(s, r))
    ensures Amend(s, c, r)["results_folder"] == Str(ResultsFolder(s, r))
  {
  }

  /** An amendment overwrites everything an earlier one wrote. */
  lemma AmendOverwrites(s: Settings, c: map<string, Value>, r1: Run, r2: Run)
    ensures Amend(s, Amend(s, c, r1), r2) == Amend(s, c, r2)
  {
    assert Amend(s, Amend(s, c, r1), r2).Keys == Amend(s, c, r2).Keys;
  }

  // ---------------------------------------------------------------------
  // The enumeration order of the sweep
  // ---------------------------------------------------------------------

  /** `zip(names, networks)`: pairs up to the shorter of the two lists. */
  function Zip(names: seq<string>, networks: seq<Network>): (r: seq<Learner>)
    ensures |r| == if |names| < |networks| then |names| else |networks|
    ensures forall i :: 0 <= i < |r| ==> r[i] == Learner(names[i], networks[i])
  {
    if names == [] || networks == [] then []
    else [Learner(names[0], networks[0])] + Zip(names[1..], networks[1..])
  }

  /** The runs for one hidden size: one per layer count, in list order. */
  function Row(name: string, h: int, nls: seq<int>): seq<Run>
    decreases |nls|
  {
    if nls == [] then [] else Row(name, h, nls[..|nls| - 1]) + [Run(name, h, nls[|nls| - 1])]
  }

  /** The row pairs the hidden size with each layer count, in list order. */
  lemma {:induction false} RowAt(name: string, h: int, nls: seq<int>)
    ensures |Row(name, h, nls)| == |nls|
    ensures forall l :: 0 <= l < |nls| ==> Row(name, h, nls)[l] == Run(name, h, nls[l])
    decreases |nls|
  {
    if nls != [] {
      RowAt(name, h, nls[..|nls| - 1]);
    }
  }

  /** The runs for a list of hidden sizes, hidden size major. */
  function Rows(name: string, hs: seq<int>, nls: seq<int>): seq<Run>
    decreases |hs|
  {
    if hs == [] then []
    else Rows(name, hs[..|hs| - 1], nls) + Row(name, hs[|hs| - 1], nls)
  }

  /** One learner yields one run per pair of hidden size and layer count. */
  lemma {:induction false} RowsLength(name: string, hs: seq<int>, nls: seq<int>)
    ensures |Rows(name, hs, nls)| == |hs| * |nls|
    decreases |hs|
  {
    if hs != [] {
      RowsLength(name, hs[..|hs| - 1], nls);
      RowAt(name, hs[|hs| - 1], nls);
      assert (|hs| - 1) * |nls| + |nls| == |hs| * |nls|;
    }
  }

  function LearnerRuns(ln: Learner): seq<Run>
  {
    Rows(ln.name, ln.network.hiddenSizes, ln.network.numLayers)
  }

  /** The number of runs one learner contributes. */
  function Size(ln: Learner): nat
  {
    |ln.network.hiddenSizes| * |ln.network.numLayers|
  }

  /** The number of runs of a list of learners. */
  function Total(ls: seq<Learner>): nat
  {
    if ls == [] then 0 else Total(ls[..|ls| - 1]) + Size(ls[|ls| - 1])
  }

  function Names(ls: seq<Learner>): seq<string>
  {
    seq(|ls|, i requires 0 <= i < |ls| => ls[i].name)
  }

  /** Every run of the sweep, in the order the loops visit them. */
  function Plan(ls: seq<Learner>): (r: seq<Run>)
    ensures |r| == Total(ls)
    decreases |ls|
  {
    if ls == [] then []
    else
      var ln := ls[|ls| - 1];
      RowsLength(ln.name, ln.network.hiddenSizes, ln.network.numLayers);
      Plan(ls[..|ls| - 1]) + LearnerRuns(ln)
  }

  lemma RowSnoc(name: string, h: int, nls: seq<int>, l: int)
    requires 0 <= l < |nls|
    ensures Row(name, h, nls[..l + 1]) == Row(name, h, nls[..l]) + [Run(name, h, nls[l])]
  {
    assert nls[..l + 1][..l] == nls[..l];
  }

  lemma RowsSnoc(name: string, hs: seq<int>, nls: seq<int>, j: int)
    requires 0 <= j < |hs|
    ensures Rows(name, hs[..j + 1], nls) == Rows(name, hs[..j], nls) + Row(name, hs[j], nls)
  {
    assert hs[..j + 1][..j] == hs[..j];
  }

  lemma PlanSnoc(ls: seq<Learner>, i: int)
    requires 0 <= i < |ls|
    ensures Plan(ls[..i + 1]) == Plan(ls[..i]) + LearnerRuns(ls[i])
  {
    assert ls[..i + 1][..i] == ls[..i];
  }

  /** Each run of one learner carries its name and values from its two lists. */
  lemma {:induction false} RowsMembers(name: string, hs: seq<int>, nls: seq<int>, k: int)
    requires 0 <= k < |Rows(name, hs, nls)|
    ensures Rows(name, hs, nls)[k].name == name
    ensures Rows(name, hs, nls)[k].lsize in hs && Rows(name, hs, nls)[k].nl in nls
    decreases |hs|
  {
    var prefix := hs[..|hs| - 1];
    var left := Rows(name, prefix, nls);
    assert Rows(name, hs, nls) == left + Row(name, hs[|hs| - 1], nls);
    RowAt(name, hs[|hs| - 1], nls);
    if k < |left| {
      RowsMembers(name, prefix, nls, k);
      assert left[k].lsize in prefix;
    }
  }

  /** Each run of the sweep belongs to one of the learners. */
  lemma {:induction false} PlanMembers(ls: seq<Learner>, k: int)
    requires 0 <= k < |Plan(ls)|
    ensures exists i :: 0 <= i < |ls| && Plan(ls)[k].name == ls[i].name
    decreases |ls|
  {
    var m := |ls|;
    var prefix := ls[..m - 1];
    var left := Plan(prefix);
    assert Plan(ls) == left + LearnerRuns(ls[m - 1]);
    if k < |left| {
      PlanMembers(prefix, k);
      var i :| 0 <= i < |prefix| && left[k].name == prefix[i].name;
      assert ls[i] == prefix[i];
    } else {
      RowsMembers(ls[m - 1].name, ls[m - 1].network.hiddenSizes, ls[m - 1].network.numLayers, k - |left|);
    }
  }

  /**
   * Closed form of the order: hidden size `j` and layer count `l` of one
   * learner sit at `j * |numLayers| + l`, so layer count varies fastest.
   */
  lemma {:induction false} RowsAt(name: string, hs: seq<int>, nls: seq<int>, j: int, l: int)
    requires 0 <= j < |hs| && 0 <= l < |nls|
    ensures j * |nls| + l < |Rows(name, hs, nls)|
    ensures Rows(name, hs, nls)[j * |nls| + l] == Run(name, hs[j], nls[l])
  {
    var m, n := |hs|, |nls|;
    var prefix := hs[..m - 1];
    RowsLength(name, prefix, nls);
    assert Rows(name, hs, nls) == Rows(name, prefix, nls) + Row(name, hs[m - 1], nls);
    RowAt(name, hs[m - 1], nls);
    if j == m - 1 {
      assert j * n + l == (m - 1) * n + l;
    } else {
      RowsAt(name, prefix, nls, j, l);
      assert prefix[j] == hs[j];
    }
  }

  /** The runs of learner `i` form the block after the runs of the learners before it. */
  lemma {:induction false} PlanOffset(ls: seq<Learner>, i: int, p: int)
    requires 0 <= i < |ls| && 0 <= p < |LearnerRuns(ls[i])|
    ensures Total(ls[..i]) + p < |Plan(ls)|
    ensures Plan(ls)[Total(ls[..i]) + p] == LearnerRuns(ls[i])[p]
    decreases |ls|
  {
    var m := |ls|;
    var prefix := ls[..m - 1];
    var left := Plan(prefix);
    assert Plan(ls) == left + LearnerRuns(ls[m - 1]);
    if i == m - 1 {
      assert ls[..i] == prefix;
    } else {
      assert prefix[..i] == ls[..i] && prefix[i] == ls[i];
      PlanOffset(prefix, i, p);
      assert Plan(ls)[Total(ls[..i]) + p] == left[Total(ls[..i]) + p];
    }
  }

  /**
   * Closed form of the whole order: learner `i` starts after the runs of the
   * learners before it, and within it `RowsAt` applies.
   */
  lemma PlanAt(ls: seq<Learner>, i: int, j: int, l: int)
    requires 0 <= i < |ls|
    requires 0 <= j < |ls[i].network.hiddenSizes| && 0 <= l < |ls[i].network.numLayers|
    ensures 0 <= j * |ls[i].network.numLayers| + l < Size(ls[i])
    ensures Total(ls[..i]) + j * |ls[i].network.numLayers| + l < |Plan(ls)|
    ensures Plan(ls)[Total(ls[..i]) + j * |ls[i].network.numLayers| + l]
      == Run(ls[i].name, ls[i].network.hiddenSizes[j], ls[i].network.numLayers[l])
  {
    var net := ls[i].network;
    var p := j * |net.numLayers| + l;
    assert 0 <= j * |net.numLayers| <= (|net.hiddenSizes| - 1) * |net.numLayers|;
    RowsAt(ls[i].name, net.hiddenSizes, net.numLayers, j, l);
    PlanOffset(ls, i, p);
  }

  // ---------------------------------------------------------------------
  // Distinct run identifiers
  // ---------------------------------------------------------------------

  predicate NoDup<X(==)>(xs: seq<X>)
  {
    forall p, q :: 0 <= p < q < |xs| ==> xs[p] != xs[q]
  }

  predicate DistinctIds(runs: seq<Run>)
  {
    forall p, q :: 0 <= p < q < |runs| ==>
      RunId(runs[p].name, runs[p].lsize, runs[p].nl) != RunId(runs[q].name, runs[q].lsize, runs[q].nl)
  }

  /** Learner names are distinct, and no value list repeats a value. */
  predicate WellFormed(ls: seq<Learner>)
  {
    && NoDup(Names(ls))
    && (forall i :: 0 <= i < |ls| ==> NoDup(ls[i].network.hiddenSizes) && NoDup(ls[i].network.numLayers))
  }

  /** One learner's runs are pairwise different when its value lists have no repeats. */
  lemma {:induction false} RowsDistinct(name: string, hs: seq<int>, nls: seq<int>)
    requires NoDup(hs) && NoDup(nls)
    ensures NoDup(Rows(name, hs, nls))
    decreases |hs|
  {
    if hs != [] {
      var m := |hs|;
      var prefix := hs[..m - 1];
      var left := Rows(name, prefix, nls);
      var right := Row(name, hs[m - 1], nls);
      var all := Rows(name, hs, nls);
      assert all == left + right;
      RowAt(name, hs[m - 1], nls);
      RowsDistinct(name, prefix, nls);
      forall p, q | 0 <= p < q < |all|
        ensures all[p] != all[q]
      {
        if q >= |left| {
          assert all[q] == right[q - |left|];
          if p >= |left| {
            assert all[p] == right[p - |left|];
            assert nls[p - |left|] != nls[q - |left|];
          } else {
            assert all[p] == left[p];
            RowsMembers(name, prefix, nls, p);
            var w :| 0 <= w < |prefix| && prefix[w] == left[p].lsize;
            assert hs[w] != hs[m - 1];
          }
        } else {
          assert all[p] == left[p] && all[q] == left[q];
        }
      }
    }
  }

  /** The runs of the sweep are pairwise different for distinct names and repeat-free value lists. */
  lemma {:induction false} PlanDistinct(ls: seq<Learner>)
    requires WellFormed(ls)
    ensures NoDup(Plan(ls))
    decreases |ls|
  {
    if ls != [] {
      var m := |ls|;
      var prefix := ls[..m - 1];
      var last := ls[m - 1];
      assert Names(prefix) == Names(ls)[..m - 1];
      assert WellFormed(prefix);
      PlanDistinct(prefix);
      var left := Plan(prefix);
      var right := LearnerRuns(last);
      var all := Plan(ls);
      assert all == left + right;
      RowsDistinct(last.name, last.network.hiddenSizes, last.network.numLayers);
      forall p, q | 0 <= p < q < |all|
        ensures all[p] != all[q]
      {
        if p < |left| && q >= |left| {
          assert all[p] == left[p] && all[q] == right[q - |left|];
          PlanMembers(prefix, p);
          RowsMembers(last.name, last.network.hiddenSizes, last.network.numLayers, q - |left|);
          var w :| 0 <= w < |prefix| && left[p].name == prefix[w].name;
          assert Names(ls)[w] != Names(ls)[m - 1];
        } else if q < |left| {
          assert all[p] == left[p] && all[q] == left[q];
        } else {
          assert all[p] == right[p - |left|] && all[q] == right[q - |left|];
        }
      }
    }
  }

  /** Different runs have different identifiers. */
  lemma DistinctRunsDistinctIds(runs: seq<Run>)
    requires NoDup(runs)
    ensures DistinctIds(runs)
  {
    forall p, q | 0 <= p < q < |runs|
      ensures RunId(runs[p].name, runs[p].lsize, runs[p].nl) != RunId(runs[q].name, runs[q].lsize, runs[q].nl)
    {
      if RunId(runs[p].name, runs[p].lsize, runs[p].nl) == RunId(runs[q].name, runs[q].lsize, runs[q].nl) {
        RunIdInjective(runs[p].name, runs[p].lsize, runs[p].nl, runs[q].name, runs[q].lsize, runs[q].nl);
      }
    }
  }

  /** With well-formed learners, no two runs of the sweep share an identifier. */
  lemma PlanDistinctIds(ls: seq<Learner>)
    requires WellFormed(ls)
    ensures DistinctIds(Plan(ls))
  {
    PlanDistinct(ls);
    DistinctRunsDistinctIds(Plan(ls));
  }

  /** Runs with distinct identifiers have distinct experiment directories. */
  lemma DistinctDirs(s: Settings, runs: seq<Run>)
    requires DistinctIds(runs)
    ensures forall p, q :: 0 <= p < q < |runs| ==> ExperimentDir(s, runs[p]) != ExperimentDir(s, runs[q])
  {
    forall p, q | 0 <= p < q < |runs|
      ensures ExperimentDir(s, runs[p]) != ExperimentDir(s, runs[q])
    {
      if ExperimentDir(s, runs[p]) == ExperimentDir(s, runs[q]) {
        JoinInjective(s.runDir, RunId(runs[p].name, runs[p].lsize, runs[p].nl), RunId(runs[q].name, runs[q].lsize, runs[q].nl));
      }
    }
  }

  // ---------------------------------------------------------------------
  // The configured sweep
  // ---------------------------------------------------------------------

  const SweptHiddenSizes: seq<int> := [256, 512, 1024, 2048, 4096]
  const SweptNumLayers: seq<int> := [1, 2, 3, 4]

  /** `zip(["mlp", "lstm"], [mlp_params, lstm_params])`. */
  function ConfiguredLearners(): seq<Learner>
  {
    Zip(["mlp", "lstm"], [Network(SweptHiddenSizes, SweptNumLayers), Network(SweptHiddenSizes, SweptNumLayers)])
  }

  /** Both learners are swept over the same five hidden sizes and four layer counts. */
  lemma ConfiguredLearnersAre()
    ensures |ConfiguredLearners()| == 2
    ensures ConfiguredLearners()[0] == Learner("mlp", Network(SweptHiddenSizes, SweptNumLayers))
    ensures ConfiguredLearners()[1] == Learner("lstm", Network(SweptHiddenSizes, SweptNumLayers))
  {
  }

  /** The configured learners have distinct names and repeat-free value lists. */
  lemma ConfiguredWellFormed()
    ensures WellFormed(ConfiguredLearners())
  {
    var ls := ConfiguredLearners();
    ConfiguredLearnersAre();
    assert Names(ls) == ["mlp", "lstm"];
    assert NoDup(SweptHiddenSizes) && NoDup(SweptNumLayers);
  }

  /** Learners sharing one parameter set contribute the same number of runs each. */
  lemma {:induction false} TotalUniform(ls: seq<Learner>, net: Network, i: int)
    requires forall k :: 0 <= k < |ls| ==> ls[k].network == net
    requires 0 <= i <= |ls|
    ensures Total(ls[..i]) == i * (|net.hiddenSizes| * |net.numLayers|)
    decreases i
  {
    if i > 0 {
      assert ls[..i][..i - 1] == ls[..i - 1];
      TotalUniform(ls, net, i - 1);
    }
  }

  /**
   * Run `20 * i + 4 * j + l` of the configured sweep is learner `i` with the
   * `j`-th hidden size and the `l`-th layer count.
   */
  lemma ConfiguredAt(i: int, j: int, l: int)
    requires 0 <= i < 2 && 0 <= j < 5 && 0 <= l < 4
    ensures 20 * i + 4 * j + l < |Plan(ConfiguredLearners())|
    ensures Plan(ConfiguredLearners())[20 * i + 4 * j + l]
      == Run(["mlp", "lstm"][i], SweptHiddenSizes[j], SweptNumLayers[l])
  {
    var ls, net := ConfiguredLearners(), Network(SweptHiddenSizes, SweptNumLayers);
    ConfiguredLearnersAre();
    assert |net.hiddenSizes| == 5 && |net.numLayers| == 4;
    assert ls[i] == Learner(["mlp", "lstm"][i], net);
    TotalUniform(ls, net, i);
    assert Total(ls[..i]) == 20 * i;
    PlanAt(ls, i, j, l);
  }

  /**
   * The configured sweep has 2 x 5 x 4 = 40 runs with distinct identifiers,
   * from `mlp_256_1` through `mlp_4096_4`, then `lstm_256_1` through `lstm_4096_4`.
   */
  lemma ConfiguredSweep()
    ensures |Plan(ConfiguredLearners())| == 40
    ensures DistinctIds(Plan(ConfiguredLearners()))
    ensures Plan(ConfiguredLearners())[0] == Run("mlp", 256, 1)
    ensures Plan(ConfiguredLearners())[19] == Run("mlp", 4096, 4)
    ensures Plan(ConfiguredLearners())[20] == Run("lstm", 256, 1)
    ensures Plan(ConfiguredLearners())[39] == Run("lstm", 4096, 4)
  {
    ConfiguredLearnersAre();
    TotalUniform(ConfiguredLearners(), Network(SweptHiddenSizes, SweptNumLayers), 2);
    assert ConfiguredLearners()[..2] == ConfiguredLearners();
    ConfiguredWellFormed();
    PlanDistinctIds(ConfiguredLearners());
    ConfiguredAt(0, 0, 0);
    ConfiguredAt(0, 4, 3);
    ConfiguredAt(1, 0, 0);
    ConfiguredAt(1, 4, 3);
  }

  // ---------------------------------------------------------------------
  // What a prefix of the sweep has done
  // ---------------------------------------------------------------------

  /**
   * What the iterations `runs` have done, starting from configuration
   * `conf0` and filesystem `fs0`: each looked for its marker in the
   * filesystem as it stood, each wrote `conf0` with only its own three keys
   * amended, each wrote its script, the shared configuration holds the last
   * amendment and every path they create exists.
   */
  ghost predicate Progress(s: Settings, runs: seq<Run>, wasCompleted: seq<bool>, written: seq<map<string, Value>>,
                           scripts: seq<string>, conf0: map<string, Value>, fs0: set<string>,
                           conf: map<string, Value>, fs: set<string>)
  {
    && SeenBefore(runs, wasCompleted, CompletedOf(s), CreatedOf(s), fs0)
    && Pointwise(runs, written, AmendOf(s, conf0))
    && Pointwise(runs, scripts, ScriptOf(s))
    && conf == (if runs == [] then conf0 else Amend(s, conf0, runs[|runs| - 1]))
    && fs == fs0 + CreatedAll(s, runs)
  }

  function CompletedOf(s: Settings): Run -> string
  {
    r => CompletedFile(s, r)
  }

  function AmendOf(s: Settings, c: map<string, Value>): Run -> map<string, Value>
  {
    r => Amend(s, c, r)
  }

  function ScriptOf(s: Settings): Run -> string
  {
    r => ScriptText(s, ConfPath(s, r))
  }

  /** One more iteration keeps `Progress`. */
  lemma ProgressStep(s: Settings, runs: seq<Run>, wasCompleted: seq<bool>, written: seq<map<string, Value>>,
                     scripts: seq<string>, conf0: map<string, Value>, fs0: set<string>,
                     prevConf: map<string, Value>, prevFs: set<string>, conf: map<string, Value>, fs: set<string>,
                     run: Run, wc: bool, w: map<string, Value>, script: string)
    requires Progress(s, runs, wasCompleted, written, scripts, conf0, fs0, prevConf, prevFs)
    requires wc == (CompletedFile(s, run) in prevFs)
    requires conf == Amend(s, prevConf, run) && w == conf
    requires script == ScriptText(s, ConfPath(s, run))
    requires fs == prevFs + Created(s, run)
    ensures Progress(s, runs + [run], wasCompleted + [wc], written + [w], scripts + [script], conf0, fs0, conf, fs)
  {
    SeenBeforeSnoc(runs, wasCompleted, CompletedOf(s), CreatedOf(s), fs0, run, wc);
    assert fs == fs0 + CreatedAll(s, runs + [run]) by {
      UnionOverSnoc(CreatedOf(s), runs, run);
    }
    assert conf == Amend(s, conf0, run) by {
      if runs != [] {
        AmendOverwrites(s, conf0, runs[|runs| - 1], run);
      }
    }
    PointwiseSnoc(runs, written, AmendOf(s, conf0), run, w);
    PointwiseSnoc(runs, scripts, ScriptOf(s), run, script);
  }

  /** `Progress` spelled out run by run. */
  lemma ProgressMeans(s: Settings, runs: seq<Run>, wasCompleted: seq<bool>, written: seq<map<string, Value>>,
                      scripts: seq<string>, conf0: map<string, Value>, fs0: set<string>,
                      conf: map<string, Value>, fs: set<string>)
    requires Progress(s, runs, wasCompleted, written, scripts, conf0, fs0, conf, fs)
    ensures |wasCompleted| == |runs| && |written| == |runs| && |scripts| == |runs|
    ensures forall k :: 0 <= k < |runs| ==>
      wasCompleted[k] == (CompletedFile(s, runs[k]) in fs0 + CreatedAll(s, runs[..k]))
    ensures forall k :: 0 <= k < |runs| ==> written[k] == Amend(s, conf0, runs[k])
    ensures forall k :: 0 <= k < |runs| ==> scripts[k] == ScriptText(s, ConfPath(s, runs[k]))
    ensures conf == if runs == [] then conf0 else Amend(s, conf0, runs[|runs| - 1])
    ensures fs == fs0 + CreatedAll(s, runs)
  {
  }

  /** After the iterations `runs`, the marker of each of them exists. */
  lemma MarkersExist(s: Settings, runs: seq<Run>, fs0: set<string>, fs: set<string>)
    requires fs == fs0 + CreatedAll(s, runs)
    ensures forall k :: 0 <= k < |runs| ==> CompletedFile(s, runs[k]) in fs
  {
    forall k | 0 <= k < |runs|
      ensures CompletedFile(s, runs[k]) in fs
    {
      UnionOverContains(CreatedOf(s), runs, k);
    }
  }

  /** Configurations written after earlier iterations are those of the configuration before them. */
  lemma AmendRebase(s: Settings, a: seq<Run>, b: seq<Run>, xb: seq<map<string, Value>>,
                    conf0: map<string, Value>, conf1: map<string, Value>)
    requires conf1 == if a == [] then conf0 else Amend(s, conf0, a[|a| - 1])
    requires Pointwise(b, xb, AmendOf(s, conf1))
    ensures Pointwise(b, xb, AmendOf(s, conf0))
  {
    if a != [] {
      forall k | 0 <= k < |b|
        ensures xb[k] == Amend(s, conf0, b[k])
      {
        AmendOverwrites(s, conf0, a[|a| - 1], b[k]);
      }
    }
  }

  lemma ConfAppend(s: Settings, a: seq<Run>, b: seq<Run>,
                   conf0: map<string, Value>, conf1: map<string, Value>, conf2: map<string, Value>)
    requires conf1 == if a == [] then conf0 else Amend(s, conf0, a[|a| - 1])
    requires conf2 == if b == [] then conf1 else Amend(s, conf1, b[|b| - 1])
    ensures conf2 == if a + b == [] then conf0 else Amend(s, conf0, (a + b)[|a + b| - 1])
  {
    if a != [] && b != [] {
      AmendOverwrites(s, conf0, a[|a| - 1], b[|b| - 1]);
    }
  }

  /** Two stretches of iterations, the second starting where the first left off, compose. */
  lemma ProgressAppend(s: Settings,
                       a: seq<Run>, wa: seq<bool>, xa: seq<map<string, Value>>, ta: seq<string>,
                       b: seq<Run>, wb: seq<bool>, xb: seq<map<string, Value>>, tb: seq<string>,
                       conf0: map<string, Value>, fs0: set<string>,
                       conf1: map<string, Value>, fs1: set<string>,
                       conf2: map<string, Value>, fs2: set<string>)
    requires Progress(s, a, wa, xa, ta, conf0, fs0, conf1, fs1)
    requires Progress(s, b, wb, xb, tb, conf1, fs1, conf2, fs2)
    ensures Progress(s, a + b, wa + wb, xa + xb, ta + tb, conf0, fs0, conf2, fs2)
  {
    SeenBeforeAppend(a, wa, b, wb, CompletedOf(s), CreatedOf(s), fs0);
    UnionOverAppend(CreatedOf(s), a, b);
    AmendRebase(s, a, b, xb, conf0, conf1);
    PointwiseAppend(a, xa, b, xb, AmendOf(s, conf0));
    PointwiseAppend(a, ta, b, tb, ScriptOf(s));
    ConfAppend(s, a, b, conf0, conf1, conf2);
  }

  // ---------------------------------------------------------------------
  // The driver: shared configuration and filesystem updated in place
  // ---------------------------------------------------------------------

  class Driver {
    const settings: Settings
    /** The shared configuration dictionary. */
    var conf: map<string, Value>
    /** The paths that exist on disk. */
    var fs: set<string>

    constructor (settings: Settings, existing: set<string>)
      ensures this.settings == settings
      ensures conf == BaseConf(settings.sourcesDir) && fs == existing
    {
      this.settings := settings;
      conf := BaseConf(settings.sourcesDir);
      fs := existing;
    }

    /** The folder checks: stop on a missing virtual environment, create a missing run folder. */
    method CheckDirs() returns (proceed: bool)
      modifies this`fs
      ensures proceed <==> settings.venvDir == "" || settings.venvDir in old(fs)
      ensures fs == if proceed then old(fs) + {settings.runDir} else old(fs)
    {
      if settings.venvDir != "" && settings.venvDir !in fs {
        return false;
      }
      if settings.runDir !in fs {
        fs := fs + {settings.runDir};
      }
      return true;
    }

    /**
     * One iteration: look for the marker (which only reports, never skips),
     * create the directory, amend and write the configuration, write the
     * script and touch the marker.
     */
    method RunIteration(name: string, lsize: int, nl: int)
      returns (wasCompleted: bool, written: map<string, Value>, script: string)
      modifies this`conf, this`fs
      ensures wasCompleted == (CompletedFile(settings, Run(name, lsize, nl)) in old(fs))
      ensures conf == Amend(settings, old(conf), Run(name, lsize, nl)) && written == conf
      ensures script == ScriptText(settings, ConfPath(settings, Run(name, lsize, nl)))
      ensures fs == old(fs) + Created(settings, Run(name, lsize, nl))
    {
      var runId := RunId(name, lsize, nl);
      var experimentDir := Join(settings.runDir, runId);
      var completedFile := Join(experimentDir, "completed");
      wasCompleted := completedFile in fs;
      fs := fs + {experimentDir};
      conf := conf["learner" := Str(LearnerSpec(lsize, nl))];
      conf := conf["log_dir" := Str(Join(experimentDir, "logs"))];
      conf := conf["results_folder" := Str(Join(experimentDir, "results"))];
      var confPath := Join(experimentDir, "config.yml");
      written := conf;
      fs := fs + {confPath};
      var scriptPath := Join(experimentDir, "run.sh");
      script := ScriptText(settings, confPath);
      fs := fs + {scriptPath};
      fs := fs + {completedFile};
    }

    /** The innermost loop: one iteration per layer count, for one learner and hidden size. */
    method RunLayers(name: string, h: int, nls: seq<int>)
      returns (runs: seq<Run>, wasCompleted: seq<bool>, written: seq<map<string, Value>>, scripts: seq<string>)
      modifies this`conf, this`fs
      ensures runs == Row(name, h, nls)
      ensures Progress(settings, runs, wasCompleted, written, scripts, old(conf), old(fs), conf, fs)
    {
      runs, wasCompleted, written, scripts := [], [], [], [];
      var l := 0;
      while l < |nls|
        invariant 0 <= l <= |nls|
        invariant runs == Row(name, h, nls[..l])
        invariant Progress(settings, runs, wasCompleted, written, scripts, old(conf), old(fs), conf, fs)
      {
        ghost var prevConf, prevFs := conf, fs;
        var wc, w, script := RunIteration(name, h, nls[l]);
        ProgressStep(settings, runs, wasCompleted, written, scripts, old(conf), old(fs), prevConf, prevFs, conf, fs, Run(name, h, nls[l]), wc, w, script);
        RowSnoc(name, h, nls, l);
        runs := runs + [Run(name, h, nls[l])];
        wasCompleted, written, scripts := wasCompleted + [wc], written + [w], scripts + [script];
        l := l + 1;
      }
      assert nls[..l] == nls;
    }

    /** The middle loop: the layer counts for each hidden size of one learner. */
    method RunSizes(name: string, hs: seq<int>, nls: seq<int>)
      returns (runs: seq<Run>, wasCompleted: seq<bool>, written: seq<map<string, Value>>, scripts: seq<string>)
      modifies this`conf, this`fs
      ensures runs == Rows(name, hs, nls)
      ensures Progress(settings, runs, wasCompleted, written, scripts, old(conf), old(fs), conf, fs)
    {
      runs, wasCompleted, written, scripts := [], [], [], [];
      var j := 0;
      while j < |hs|
        invariant 0 <= j <= |hs|
        invariant runs == Rows(name, hs[..j], nls)
        invariant Progress(settings, runs, wasCompleted, written, scripts, old(conf), old(fs), conf, fs)
      {
        ghost var midConf, midFs := conf, fs;
        var r, wc, w, t := RunLayers(name, hs[j], nls);
        ProgressAppend(settings, runs, wasCompleted, written, scripts, r, wc, w, t, old(conf), old(fs), midConf, midFs, conf, fs);
        RowsSnoc(name, hs, nls, j);
        runs, wasCompleted, written, scripts := runs + r, wasCompleted + wc, written + w, scripts + t;
        j := j + 1;
      }
      assert hs[..j] == hs;
    }

    /** The outer loop: the sizes and layer counts of each learner in turn. */
    method RunLearners(ls: seq<Learner>)
      returns (runs: seq<Run>, wasCompleted: seq<bool>, written: seq<map<string, Value>>, scripts: seq<string>)
      modifies this`conf, this`fs
      ensures runs == Plan(ls)
      ensures Progress(settings, runs, wasCompleted, written, scripts, old(conf), old(fs), conf, fs)
    {
      runs, wasCompleted, written, scripts := [], [], [], [];
      var i := 0;
      while i < |ls|
        invariant 0 <= i <= |ls|
        invariant runs == Plan(ls[..i])
        invariant Progress(settings, runs, wasCompleted, written, scripts, old(conf), old(fs), conf, fs)
      {
        ghost var midConf, midFs := conf, fs;
        var r, wc, w, t := RunSizes(ls[i].name, ls[i].network.hiddenSizes, ls[i].network.numLayers);
        ProgressAppend(settings, runs, wasCompleted, written, scripts, r, wc, w, t, old(conf), old(fs), midConf, midFs, conf, fs);
        PlanSnoc(ls, i);
        runs, wasCompleted, written, scripts := runs + r, wasCompleted + wc, written + w, scripts + t;
        i := i + 1;
      }
      assert ls[..i] == ls;
    }

    /**
     * The sweep: learner names paired with their parameter sets, then for
     * each learner, each hidden size and each layer count, in list order,
     * one iteration. Returns the runs, whether each marker was already
     * present, each configuration written and each script written.
     */
    method RunSweep(names: seq<string>, networks: seq<Network>)
      returns (runs: seq<Run>, wasCompleted: seq<bool>, written: seq<map<string, Value>>, scripts: seq<string>)
      modifies this`conf, this`fs
      ensures runs == Plan(Zip(names, networks))
      ensures |wasCompleted| == |runs| && |written| == |runs| && |scripts| == |runs|
      ensures forall k :: 0 <= k < |runs| ==>
        wasCompleted[k] == (CompletedFile(settings, runs[k]) in old(fs) + CreatedAll(settings, runs[..k]))
      ensures forall k :: 0 <= k < |runs| ==> written[k] == Amend(settings, old(conf), runs[k])
      ensures forall k :: 0 <= k < |runs| ==> scripts[k] == ScriptText(settings, ConfPath(settings, runs[k]))
      ensures conf == if runs == [] then old(conf) else Amend(settings, old(conf), runs[|runs| - 1])
      ensures fs == old(fs) + CreatedAll(settings, runs)
      ensures forall k :: 0 <= k < |runs| ==> CompletedFile(settings, runs[k]) in fs
    {
      runs, wasCompleted, written, scripts := RunLearners(Zip(names, networks));
      ProgressMeans(settings, runs, wasCompleted, written, scripts, old(conf), old(fs), conf, fs);
      MarkersExist(settings, runs, old(fs), fs);
    }
  }
}
