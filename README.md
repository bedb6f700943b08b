# Experiment sweep and score loading

This project models, in Dafny, the two driver scripts of a text-classification
experiment setup:

- `run.py` performs the preliminary architecture sweep. For each learner
  ("mlp", then "lstm"), each hidden size and each layer count (layer count
  varying fastest), it:
  - derives a run identifier `name_lsize_nl` and an experiment directory under
    the run folder;
  - reports whether the `completed` marker is already present;
  - creates the directory;
  - amends the shared configuration with the run's learner, log folder and
    results folder, and writes it to `config.yml`;
  - writes a `run.sh` script;
  - touches the marker.
- `stat_tests.py` loads, for every group of experiment directories, the
  results pickle of each directory and indexes it by run type, metric,
  optional multiclass aggregation and statistic. It flattens list-valued
  scores into the group. For the multilabel metrics "ap" and "auc" the
  aggregation is switched off. When no group is loaded the script exits.

Modules:

- `PathText` (`path_text.dfy`) holds two Python string behaviours the scripts
  rely on, with the lemmas the identifiers and paths need:
  - `str` of an integer, with a parse round trip and injectivity;
  - POSIX `os.path.join`.
- `Sequences` (`sequences.dfy`) holds facts about sequences built one
  element at a time, stated for an arbitrary per-element function. The
  record of what the sweep has done is phrased with them.
- `Sweep` (`sweep.dfy`) models the sweep.
  - Class `Driver` holds the shared configuration dictionary and the set of
    paths that exist. Its methods are the loops of the script, proved against
    the specification function `Plan` (the order of the runs) and against
    `Amend` and `Created` (the configuration and the paths each iteration
    writes).
  - The script each iteration records is `ScriptText`, the corrected script
    with the activation on a line of its own. The text run.py:80-83 actually
    writes is `ScriptTextAsWritten`. The two differ exactly when a virtual
    environment is configured (`ScriptAsWrittenDiffers`,
    `ScriptAsWrittenWithoutVenv`; see the findings below).
  - Separate lemmas give:
    - the number of runs and the closed-form position of every run;
    - the distinctness of run identifiers and experiment directories;
    - the concrete 40-run sweep configured at the head of the script.
- `StatTests` (`stat_tests.dfy`) models the score loading.
  - `LoadGroupResults` is the loop of `load_group_results`, proved equal to
    the specification function `Collect`. That function is a fold over the
    load outcome of each directory: the concatenated contributions, or the
    first error.
  - `AnalyzeGroups` is the group loop of the main block.
  - Unpickled tables are a datatype `Obj<T>` of scalars, lists and
    dictionaries.
  - The file system is a map from paths to unpickled tables.
  - A missing file, a missing key and indexing a non-dictionary are
    modelled as errors.

Two source behaviours are modelled as written:

- The `completed` check (run.py:65-66) only prints. The iteration is carried
  out anyway, and `RunIteration` writes the configuration and the script
  whether or not the marker existed.
- The `learner` entry is always `mlp,<lsize>,<nl>`, also for the "lstm"
  runs (run.py:69), so `LearnerSpec` takes no learner name.

## Model

| member | source | states |
|---|---|---|
| PathText.IntToString | run.py:62 | the decimal text of an integer is non-empty, made of digits and an optional minus sign, and contains no `_`, `/` or `,` |
| PathText.IntToStringRoundTrip | run.py:62 | parsing the decimal text of an integer gives back the integer |
| PathText.IntToStringInjective | run.py:62 | different integers have different decimal texts |
| PathText.JoinParts | run.py:63-64 | a joined path starts with the first component and ends with the second |
| PathText.JoinInjective | run.py:63-64 | joining onto the same folder keeps different names apart |
| Sweep.RunIdInjective | run.py:62 | the identifier `name_lsize_nl` determines learner, hidden size and layer count, for any learner name: the decimal texts hold no underscore, so the last two underscores separate the parts |
| Sweep.ExperimentDirEnd | run.py:62-63 | the experiment directory is non-empty and ends in the last digit of the layer count, never in a separator |
| Sweep.RunLayout | run.py:63-76 | the marker, logs, results, config and script paths are the experiment directory, a separator and the fixed name |
| Sweep.DistinctDirs | run.py:62-63 | runs with distinct identifiers get distinct experiment directories |
| Sweep.BaseConf | run.py:43-54 | the shared configuration holds exactly the seven base keys, none of the three per-run keys, and a serialisation folder inside the sources folder |
| Sweep.AmendEntries | run.py:69-71 | amending adds exactly `learner`, `log_dir`, `results_folder`, sets them from the run, and leaves every other key unchanged |
| Sweep.AmendOverwrites | run.py:69-71 | amending twice equals amending once with the later run: nothing of an earlier run survives in the configuration |
| Sweep.ScriptActivates | run.py:79-83 | the script starts with `source ` exactly when a virtual environment is configured |
| Sweep.ScriptPartsSingleLine | run.py:80-83 | the activation, `cd` and pipeline commands contain no newline when the folders and configuration path contain none |
| Sweep.ScriptLines | run.py:77-83 | the script's lines are the optional activation, the `cd` line and the pipeline call |
| Sweep.ScriptAsWrittenMergesLines | run.py:79-82 | as written, with a virtual environment the activation and the `cd` share one line, one line fewer than intended |
| Sweep.ScriptAsWrittenWithoutVenv | run.py:79-83 | without a virtual environment the script as written and the corrected script are the same text |
| Sweep.ScriptAsWrittenDiffers | run.py:79-83 | with a virtual environment the script as written is one character shorter than the corrected script, so the two texts differ |
| Sweep.Zip | run.py:57 | pairing names with parameter sets stops at the shorter list and pairs them by position |
| Sweep.RowAt | run.py:60-62 | one hidden size yields one run per layer count, in list order |
| Sweep.RowsLength | run.py:59-60 | one learner yields hidden sizes times layer counts runs |
| Sweep.Plan | run.py:57-60 | the sweep yields the sum over learners of hidden sizes times layer counts runs |
| Sweep.RowsMembers | run.py:59-60 | every run of one learner carries that learner's name and one of its hidden sizes and layer counts |
| Sweep.PlanMembers | run.py:57-60 | every run of the sweep belongs to one of the learners |
| Sweep.RowsAt | run.py:59-60 | the run at position `j * layerCounts + l` of a learner has the `j`-th hidden size and the `l`-th layer count |
| Sweep.PlanOffset | run.py:57-60 | the runs of learner `i` form one block that starts after all runs of the learners before it |
| Sweep.PlanAt | run.py:57-60 | the run of learner `i`, size `j`, layer count `l` sits after all runs of earlier learners, at offset `j * layerCounts + l` |
| Sweep.RowsDistinct | run.py:59-60 | one learner never visits the same run twice when its value lists have no repeats |
| Sweep.PlanDistinct | run.py:57-60 | the sweep never visits the same run twice for distinct learner names and repeat-free value lists |
| Sweep.DistinctRunsDistinctIds | run.py:62 | distinct runs get distinct identifiers |
| Sweep.PlanDistinctIds | run.py:57-62 | all runs of the sweep have pairwise distinct identifiers for distinct learner names and repeat-free value lists |
| Sweep.ConfiguredLearnersAre | run.py:22-57 | the sweep pairs "mlp" and "lstm" each with the five hidden sizes and four layer counts |
| Sweep.ConfiguredWellFormed | run.py:22-57 | the configured learner names are distinct and no value list repeats a value |
| Sweep.TotalUniform | run.py:57-60 | learners sharing one parameter set contribute hidden sizes times layer counts runs each |
| Sweep.ConfiguredAt | run.py:22-60 | run `20 * i + 4 * j + l` of the configured sweep is learner `i` with the `j`-th hidden size and `l`-th layer count |
| Sweep.ConfiguredSweep | run.py:22-62 | the configured sweep has 40 runs with distinct identifiers, from `mlp_256_1` through `mlp_4096_4` to `lstm_256_1` through `lstm_4096_4` |
| Sweep.ProgressStep | run.py:61-86 | one more iteration extends the record of what the sweep has done: the marker check, the configuration and script written, the last amendment and the created paths |
| Sweep.ProgressAppend | run.py:57-86 | the records of two consecutive stretches of iterations combine into the record of both |
| Sweep.AmendRebase | run.py:69-71 | configurations written after earlier iterations equal the starting configuration amended for their own run |
| Sweep.ProgressMeans | run.py:57-86 | the record says, run by run, what each marker check saw, what each configuration and script written was, the final configuration and the final paths |
| Sweep.MarkersExist | run.py:64-86 | after the iterations every run's marker exists |
| Sweep.Driver.constructor | run.py:43-54 | the driver starts from the base configuration and the existing paths |
| Sweep.Driver.CheckDirs | run.py:33-39 | the sweep proceeds exactly when no virtual environment is set or it exists; then the run folder exists afterwards |
| Sweep.Driver.RunIteration | run.py:61-86 | one iteration reports whether the marker existed, amends the configuration, writes it and the script, and adds the directory, config, script and marker paths |
| Sweep.Driver.RunLayers | run.py:60-86 | the layer loop runs one learner and size over all layer counts in order and keeps the sweep's progress invariant |
| Sweep.Driver.RunSizes | run.py:59-86 | the size loop runs one learner over all sizes and layer counts in order and keeps the progress invariant |
| Sweep.Driver.RunLearners | run.py:57-86 | the learner loop runs every learner in order, visiting exactly the runs of `Plan`, and keeps the progress invariant |
| Sweep.Driver.RunSweep | run.py:57-86 | the sweep visits exactly the runs of `Plan` in order; each configuration written is the base amended for its run, each script is the run's script, each marker check sees the markers of earlier runs, and afterwards every marker exists |
| StatTests.ResultsPathLayout | stat_tests.py:54 | the results pickle is `results/results.pickle` inside the directory |
| StatTests.Index | stat_tests.py:59-62 | indexing succeeds exactly on a dictionary that holds the key, and gives its entry |
| StatTests.KeyPath | stat_tests.py:59-62 | the keys looked up are run type, metric, the aggregation only when given, and the statistic |
| StatTests.ScoreOfIsLookup | stat_tests.py:59-62 | the score is the table indexed along the key path |
| StatTests.LookupOkIff | stat_tests.py:59-62 | a lookup succeeds exactly when every step along the key path indexes a dictionary holding the next key |
| StatTests.GatherOkIff | stat_tests.py:53-67 | folding load outcomes succeeds exactly when every outcome is a score |
| StatTests.GatherFirstError | stat_tests.py:53-67 | a failing fold reports the first error among the outcomes |
| StatTests.GatherAppend | stat_tests.py:64-67 | folding two runs of outcomes concatenates their folds |
| StatTests.GatherErrPersists | stat_tests.py:53-62 | once a prefix of outcomes fails, the fold fails with that error |
| StatTests.GatherLength | stat_tests.py:64-67 | a successful fold holds the list lengths of list scores plus one per other score |
| StatTests.CollectEmpty | stat_tests.py:51-53 | no directories give an empty group |
| StatTests.CollectOkIff | stat_tests.py:53-62 | a group loads exactly when every directory's pickle exists and holds the score |
| StatTests.CollectFirstError | stat_tests.py:53-62 | a failing group reports the error of the first failing directory |
| StatTests.CollectAppend | stat_tests.py:53-67 | the group of two lists of directories is the two groups concatenated |
| StatTests.CollectLength | stat_tests.py:64-67 | a loaded group holds the list lengths of list scores plus one per other score |
| StatTests.LoadGroupResults | stat_tests.py:51-68 | the loop returns exactly the group `Collect` specifies, including its first error |
| StatTests.AnalyzeGroups | stat_tests.py:72-80 | one group per entry in order; the aggregation is off from the first group on for "ap" and "auc"; the outcome fails exactly when some group fails and then with the first failing group's error; the exit for lack of results happens exactly when there are no groups |

## Left out

- Console output (`print`) of both scripts is not modelled.
- The absolute folder constants of both scripts and the directory list of stat_tests.py are parameters. The concrete sweep parameters are modelled (`ConfiguredSweep`).
- `os.path.join` with an absolute second component is not modelled. All components the scripts join are relative.
- `exists` and `makedirs` work on a set of existing paths. Parent folders that `makedirs` would also create are not added, and file contents are not kept.
- The YAML dump (run.py:73-74) is modelled as the dictionary written, not its text.
- The `touch` subprocess (run.py:86) is modelled as adding the marker path. Running the experiment itself is commented out in the source.
- Reading `logs/results.txt` with pandas (run.py:88-89) is not modelled. It is a foreign call, and no file in the scripts creates that file. The model assumes every such read succeeds. As written, the script raises an error at the first run whose `logs/results.txt` is missing, and nothing creates it because the experiment call (run.py:85) is commented out. So on a fresh run folder the script stops after the first run's marker, whereas `RunSweep` carries out every iteration.
- The `exit()` after a missing virtual environment (run.py:36) is modelled as `CheckDirs` returning false.
- Unpickling is modelled as a lookup in a map from paths to tables. A file that exists but does not unpickle is not modelled.
- Python exceptions (missing file, missing key, indexing a non-dictionary) are modelled as `Err` values, and the process exit status after one is not modelled.
- The significance tests (`f_oneway`, stat_tests.py:83-84) and the printing of the results are not modelled. Only the loaded groups they receive are.
- `run_types` (stat_tests.py:43) is unused by the source. The main block relies on the default run type `'run'`, which `AnalyzeGroups` takes as a parameter.
- Sweep.Driver.RunIteration: the script it returns is the corrected `ScriptText`, not the text run.py:80-83 writes (`ScriptTextAsWritten`). The two differ whenever a virtual environment is configured, as `ScriptAsWrittenMergesLines` states.
- Sweep.Driver.RunSweep: each script it records is the corrected `ScriptText`, not the as-written text, for the same reason.
- Sweep.ProgressStep: the scripts in the record of the sweep are the corrected `ScriptText`, as in `RunIteration`.
- Sweep.ProgressMeans: spells out the scripts as the corrected `ScriptText`, as in `RunIteration`.

## Findings

| source | as written | input that shows it | evidently intended | confidence | as-written member | corrected member |
|---|---|---|---|---|---|---|
| run.py:80 | the activation command is written without a trailing newline, so the following `cd` command lands on the same line | venv folder `/venv`, sources folder `/src/`: the first script line is `source "/venv/bin/activate"cd "/src/"` | the activation on a line of its own, followed by the `cd` line | high, not executed | Sweep.ScriptAsWrittenMergesLines | Sweep.ScriptLines |
