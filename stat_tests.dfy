/**
 * Score loading of stat_tests.py: each directory's unpickled results table
 * is indexed by run type, metric, optional aggregation and statistic, and
 * the scores found are flattened, in directory order, into one group.
 */
module StatTests {
  import opened Wrappers
  import opened PathText
  import opened Sequences

  /**
   * An unpickled object: a score value of type T, a list, or a dictionary
   * keyed by strings.
   */
  datatype Obj<T> = Scalar(value: T) | List(items: seq<Obj<T>>) | Dict(entries: map<string, Obj<T>>)

  /** Why loading a group stops. */
  datatype LoadError =
    | MissingFile(path: string)        // open() of an absent results pickle
    | MissingKey(key: string)          // KeyError on a dictionary
    | NotSubscriptable(key: string)    // indexing a value that is not a dictionary

  /** What is looked up in every table. */
  datatype Query = Query(runType: string, metric: string, aggr: Option<string>, stat: string)

  /** The results pickle of a run directory: `<dir>/results/results.pickle`. */
  function ResultsPath(dir: string): string
  {
    Join(Join(dir, "results"), "results.pickle")
  }

  /** The pickle sits in the `results` folder of the directory, under the directory's own path. */
  lemma ResultsPathLayout(dir: string)
    ensures ResultsPath(dir) == Join(dir, "results") + "/results.pickle"
    ensures |ResultsPath(dir)| > |dir| && ResultsPath(dir)[..|dir|] == dir
  {
    var folder := Join(dir, "results");
    JoinParts(dir, "results");
    assert folder[|folder| - 1] == 's';
    assert ResultsPath(dir) == folder + "/results.pickle";
    assert ResultsPath(dir)[..|folder|] == folder;
  }

  /** `o[key]`. */
  function Index<T>(o: Obj<T>, key: string): (r: Result<Obj<T>, LoadError>)
    ensures r.Ok? <==> o.Dict? && key in o.entries
    ensures r.Ok? ==> r.value == o.entries[key]
  {
    match o
    case Dict(entries) => if key in entries then Ok(entries[key]) else Err(MissingKey(key))
    case _ => Err(NotSubscriptable(key))
  }

  /** The score of one table: `table[run_type][metric]`, then `[aggr]` if given, then `[stat]`. */
  function ScoreOf<T>(table: Obj<T>, q: Query): Result<Obj<T>, LoadError>
  {
    match Index(table, q.runType)
    case Err(e) => Err(e)
    case Ok(byType) =>
      match Index(byType, q.metric)
      case Err(e) => Err(e)
      case Ok(byMetric) =>
        match (if q.aggr.Some? then Index(byMetric, q.aggr.value) else Ok(byMetric))
        case Err(e) => Err(e)
        case Ok(byAggr) => Index(byAggr, q.stat)
  }

  /** The keys a query looks up, outermost first; the aggregation only when it is given. */
  function KeyPath(q: Query): (p: seq<string>)
    ensures |p| == if q.aggr.Some? then 4 else 3
    ensures p[0] == q.runType && p[1] == q.metric && p[|p| - 1] == q.stat
    ensures q.aggr.Some? ==> p[2] == q.aggr.value
  {
    [q.runType, q.metric] + (if q.aggr.Some? then [q.aggr.value] else []) + [q.stat]
  }

  /** Indexing by each key of a path in turn; the first failing step decides the error. */
  function Lookup<T>(o: Obj<T>, path: seq<string>): Result<Obj<T>, LoadError>
    decreases |path|
  {
    if path == [] then Ok(o)
    else
      match Lookup(o, path[..|path| - 1])
      case Err(e) => Err(e)
      case Ok(inner) => Index(inner, path[|path| - 1])
  }

  /** The score lookup is the path lookup along the query's keys. */
  lemma ScoreOfIsLookup<T>(table: Obj<T>, q: Query)
    ensures ScoreOf(table, q) == Lookup(table, KeyPath(q))
  {
    var p1 := [q.runType];
    var p2 := p1 + [q.metric];
    var p3 := if q.aggr.Some? then p2 + [q.aggr.value] else p2;
    LookupSnoc(table, [], q.runType);
    LookupSnoc(table, p1, q.metric);
    if q.aggr.Some? {
      LookupSnoc(table, p2, q.aggr.value);
    }
    LookupSnoc(table, p3, q.stat);
    assert KeyPath(q) == p3 + [q.stat];
  }

  /** One more key: index the result of the shorter path. */
  lemma LookupSnoc<T>(o: Obj<T>, path: seq<string>, key: string)
    ensures Lookup(o, path + [key]) == if Lookup(o, path).Err? then Lookup(o, path) else Index(Lookup(o, path).value, key)
  {
    assert (path + [key])[..|path|] == path;
  }

  /** Step `i` of a lookup along `path` reaches a dictionary that holds key `path[i]`. */
  predicate StepFinds<T>(o: Obj<T>, path: seq<string>, i: int)
    requires 0 <= i < |path|
  {
    var r := Lookup(o, path[..i]);
    r.Ok? && r.value.Dict? && path[i] in r.value.entries
  }

  /**
   * A path lookup succeeds exactly when every step finds a dictionary that
   * holds the next key: a missing key is an error, never a default.
   */
  lemma {:induction false} LookupOkIff<T>(o: Obj<T>, path: seq<string>)
    ensures Lookup(o, path).Ok? <==> forall i :: 0 <= i < |path| ==> StepFinds(o, path, i)
    decreases |path|
  {
    if path != [] {
      var n := |path| - 1;
      var prefix := path[..n];
      LookupOkIff(o, prefix);
      forall i | 0 <= i < n
        ensures StepFinds(o, prefix, i) == StepFinds(o, path, i)
      {
        assert prefix[..i] == path[..i];
      }
      assert Lookup(o, path).Ok? <==> Lookup(o, prefix).Ok? && StepFinds(o, path, n);
    }
  }

  /** What a loaded score adds to a group: a list's elements, or the score itself. */
  function Contribution<T>(score: Obj<T>): seq<Obj<T>>
  {
    if score.List? then score.items else [score]
  }

  /** How many values a score adds: the list's length, or one. */
  function Weight<T>(score: Obj<T>): nat
  {
    if score.List? then |score.items| else 1
  }

  /** Open, unpickle and index the results of one directory. */
  function LoadScore<T>(store: map<string, Obj<T>>, dir: string, q: Query): Result<Obj<T>, LoadError>
  {
    var path := ResultsPath(dir);
    if path in store then ScoreOf(store[path], q) else Err(MissingFile(path))
  }

  /**
   * The outcome of loading each directory, in the order given. The ensures
   * clauses restate the comprehension; they are there only to hand each
   * outcome to the proofs that use `Loads`.
   */
  function Loads<T>(store: map<string, Obj<T>>, dirs: seq<string>, q: Query): (rs: seq<Result<Obj<T>, LoadError>>)
    ensures |rs| == |dirs|
    ensures forall i :: 0 <= i < |dirs| ==> rs[i] == LoadScore(store, dirs[i], q)
  {
    seq(|dirs|, i requires 0 <= i < |dirs| => LoadScore(store, dirs[i], q))
  }

  /** Loading a prefix of the directories gives the prefix of the outcomes. */
  lemma LoadsPrefix<T>(store: map<string, Obj<T>>, dirs: seq<string>, n: nat, q: Query)
    requires n <= |dirs|
    ensures Loads(store, dirs[..n], q) == Loads(store, dirs, q)[..n]
  {
  }

  /** Loading `a + b` gives the outcomes of `a` followed by those of `b`. */
  lemma LoadsAppend<T>(store: map<string, Obj<T>>, a: seq<string>, b: seq<string>, q: Query)
    ensures Loads(store, a + b, q) == Loads(store, a, q) + Loads(store, b, q)
  {
  }

  /**
   * Folds outcomes in order: the contributions of all of them concatenated,
   * or the first error.
   */
  function Gather<T>(rs: seq<Result<Obj<T>, LoadError>>): Result<seq<Obj<T>>, LoadError>
    decreases |rs|
  {
    if rs == [] then Ok([])
    else
      match Gather(rs[..|rs| - 1])
      case Err(e) => Err(e)
      case Ok(prefix) =>
        match rs[|rs| - 1]
        case Err(e) => Err(e)
        case Ok(score) => Ok(prefix + Contribution(score))
  }

  /**
   * The group of `dirs`: the contributions of all directories in order, or
   * the error of the first directory that fails.
   */
  function Collect<T>(store: map<string, Obj<T>>, dirs: seq<string>, q: Query): Result<seq<Obj<T>>, LoadError>
  {
    Gather(Loads(store, dirs, q))
  }

  /** One more outcome: an earlier error stays, a new error stops, a score is added. */
  lemma GatherSnoc<T>(rs: seq<Result<Obj<T>, LoadError>>, r: Result<Obj<T>, LoadError>)
    ensures Gather(rs + [r]) ==
      if Gather(rs).Err? then Gather(rs)
      else if r.Err? then Err(r.error)
      else Ok(Gather(rs).value + Contribution(r.value))
  {
    assert (rs + [r])[..|rs|] == rs;
  }

  /** A fold succeeds exactly when every outcome is a score. */
  lemma {:induction false} GatherOkIff<T>(rs: seq<Result<Obj<T>, LoadError>>)
    ensures Gather(rs).Ok? <==> forall i :: 0 <= i < |rs| ==> rs[i].Ok?
    decreases |rs|
  {
    if rs != [] {
      var prefix := rs[..|rs| - 1];
      GatherOkIff(prefix);
      assert forall i :: 0 <= i < |prefix| ==> prefix[i] == rs[i];
    }
  }

  /** A failing fold reports the first error among the outcomes. */
  lemma {:induction false} GatherFirstError<T>(rs: seq<Result<Obj<T>, LoadError>>)
    requires Gather(rs).Err?
    ensures exists i :: (0 <= i < |rs| && (forall j :: 0 <= j < i ==> rs[j].Ok?) && rs[i] == Err(Gather(rs).error))
    decreases |rs|
  {
    var n := |rs| - 1;
    var prefix := rs[..n];
    assert forall i :: 0 <= i < |prefix| ==> prefix[i] == rs[i];
    if Gather(prefix).Err? {
      GatherFirstError(prefix);
      var i :| 0 <= i < |prefix| && (forall j :: 0 <= j < i ==> prefix[j].Ok?) && prefix[i] == Err(Gather(prefix).error);
      assert rs[i] == Err(Gather(rs).error);
    } else {
      GatherOkIff(prefix);
      assert forall j :: 0 <= j < n ==> rs[j].Ok?;
    }
  }

  /** Folding `a + b` concatenates the folds of `a` and `b`. */
  lemma {:induction false} GatherAppend<T>(a: seq<Result<Obj<T>, LoadError>>, b: seq<Result<Obj<T>, LoadError>>)
    requires Gather(a).Ok? && Gather(b).Ok?
    ensures Gather(a + b) == Ok(Gather(a).value + Gather(b).value)
    decreases |b|
  {
    if b == [] {
      assert a + b == a;
      assert Gather(a).value + [] == Gather(a).value;
    } else {
      var b', r := b[..|b| - 1], b[|b| - 1];
      assert b == b' + [r];
      GatherSnoc(b', r);
      GatherAppend(a, b');
      assert a + b == (a + b') + [r];
      GatherSnoc(a + b', r);
      AppendAssoc(Gather(a).value, Gather(b').value, Contribution(r.value));
    }
  }

  /** Once a prefix of the outcomes fails, the whole fold fails with the same error. */
  lemma {:induction false} GatherErrPersists<T>(rs: seq<Result<Obj<T>, LoadError>>, n: nat)
    requires n <= |rs| && Gather(rs[..n]).Err?
    ensures Gather(rs) == Gather(rs[..n])
    decreases |rs| - n
  {
    if n < |rs| {
      assert rs[..n + 1] == rs[..n] + [rs[n]];
      GatherSnoc(rs[..n], rs[n]);
      GatherErrPersists(rs, n + 1);
    } else {
      assert rs[..n] == rs;
    }
  }

  /** The number of values the outcomes add: a list score its length, any other score one. */
  function TotalWeight<T>(rs: seq<Result<Obj<T>, LoadError>>): nat
    requires forall i :: 0 <= i < |rs| ==> rs[i].Ok?
    decreases |rs|
  {
    if rs == [] then 0
    else
      assert forall i :: 0 <= i < |rs| - 1 ==> rs[..|rs| - 1][i] == rs[i];
      TotalWeight(rs[..|rs| - 1]) + Weight(rs[|rs| - 1].value)
  }

  /** A successful fold holds exactly the total weight of the outcomes. */
  lemma {:induction false} GatherLength<T>(rs: seq<Result<Obj<T>, LoadError>>)
    requires forall i :: 0 <= i < |rs| ==> rs[i].Ok?
    ensures Gather(rs).Ok? && |Gather(rs).value| == TotalWeight(rs)
    decreases |rs|
  {
    GatherOkIff(rs);
    if rs != [] {
      var prefix := rs[..|rs| - 1];
      assert forall i :: 0 <= i < |prefix| ==> prefix[i] == rs[i];
      GatherLength(prefix);
      assert rs == prefix + [rs[|rs| - 1]];
      GatherSnoc(prefix, rs[|rs| - 1]);
    }
  }

  /** No directories, an empty group. */
  lemma CollectEmpty<T>(store: map<string, Obj<T>>, q: Query)
    ensures Collect(store, [], q) == Ok([])
  {
  }

  /** A group loads exactly when every directory's score loads. */
  lemma CollectOkIff<T>(store: map<string, Obj<T>>, dirs: seq<string>, q: Query)
    ensures Collect(store, dirs, q).Ok? <==> forall i :: 0 <= i < |dirs| ==> LoadScore(store, dirs[i], q).Ok?
  {
    GatherOkIff(Loads(store, dirs, q));
  }

  /** A failing group reports the error of its first failing directory. */
  lemma CollectFirstError<T>(store: map<string, Obj<T>>, dirs: seq<string>, q: Query)
    requires Collect(store, dirs, q).Err?
    ensures exists i :: (0 <= i < |dirs|
                         && (forall j :: 0 <= j < i ==> LoadScore(store, dirs[j], q).Ok?)
                         && LoadScore(store, dirs[i], q) == Err(Collect(store, dirs, q).error))
  {
    var rs := Loads(store, dirs, q);
    GatherFirstError(rs);
    var i :| 0 <= i < |rs| && (forall j :: 0 <= j < i ==> rs[j].Ok?) && rs[i] == Err(Gather(rs).error);
    assert forall j :: 0 <= j < i ==> LoadScore(store, dirs[j], q).Ok?;
  }

  /** A group over `a + b` is the group over `a` followed by the group over `b`. */
  lemma CollectAppend<T>(store: map<string, Obj<T>>, a: seq<string>, b: seq<string>, q: Query)
    requires Collect(store, a, q).Ok? && Collect(store, b, q).Ok?
    ensures Collect(store, a + b, q) == Ok(Collect(store, a, q).value + Collect(store, b, q).value)
  {
    LoadsAppend(store, a, b, q);
    GatherAppend(Loads(store, a, q), Loads(store, b, q));
  }

  /** A loaded group holds the sum of the list lengths of list scores plus one per other score. */
  lemma CollectLength<T>(store: map<string, Obj<T>>, dirs: seq<string>, q: Query)
    requires forall i :: 0 <= i < |dirs| ==> LoadScore(store, dirs[i], q).Ok?
    ensures Collect(store, dirs, q).Ok? && |Collect(store, dirs, q).value| == TotalWeight(Loads(store, dirs, q))
  {
    GatherLength(Loads(store, dirs, q));
  }

  /** `load_group_results`: the loop over the directories, extending or appending each score. */
  method LoadGroupResults<T>(store: map<string, Obj<T>>, dirList: seq<string>, metric: string, evaluationStat: string,
                             aggr: Option<string>, runType: string)
    returns (r: Result<seq<Obj<T>>, LoadError>)
    ensures r == Collect(store, dirList, Query(runType, metric, aggr, evaluationStat))
  {
    var q := Query(runType, metric, aggr, evaluationStat);
    var groupResults: seq<Obj<T>> := [];
    var i := 0;
    while i < |dirList|
      invariant 0 <= i <= |dirList|
      invariant Gather(Loads(store, dirList, q)[..i]) == Ok(groupResults)
    {
      ghost var rs := Loads(store, dirList, q);
      assert rs[..i + 1] == rs[..i] + [rs[i]];
      GatherSnoc(rs[..i], rs[i]);
      var resultsFile := ResultsPath(dirList[i]);
      if resultsFile !in store {
        GatherErrPersists(rs, i + 1);
        return Err(MissingFile(resultsFile));
      }
      var df := store[resultsFile];
      var score := Index(df, runType);
      if score.Ok? {
        score := Index(score.value, metric);
      }
      if score.Ok? && aggr.Some? {
        score := Index(score.value, aggr.value);
      }
      if score.Ok? {
        score := Index(score.value, evaluationStat);
      }
      assert score == ScoreOf(df, q);
      if score.Err? {
        GatherErrPersists(rs, i + 1);
        return Err(score.error);
      }
      if score.value.List? {
        groupResults := groupResults + score.value.items;
      } else {
        groupResults := groupResults + [score.value];
      }
      i := i + 1;
    }
    assert Loads(store, dirList, q)[..i] == Loads(store, dirList, q);
    return Ok(groupResults);
  }

  /** The metrics for which the aggregation is switched off. */
  predicate IsMultilabelMetric(metric: string)
  {
    metric in ["ap", "auc"]
  }

  /**
   * The main block: one group per entry of `directoryList`, in order. For
   * "ap" and "auc" the aggregation variable is set to None before the first
   * group and stays so. Returns the groups (or the first error), the final
   * value of the aggregation variable and whether the script stops with
   * status 1 for lack of results.
   */
  method AnalyzeGroups<T>(store: map<string, Obj<T>>, directoryList: seq<seq<string>>, evaluationMetric: string,
                          evaluationStat: string, multiclassAggregation: Option<string>, runType: string)
    returns (results: Result<seq<seq<Obj<T>>>, LoadError>, aggr: Option<string>, noResults: bool)
    ensures aggr == if |directoryList| > 0 && IsMultilabelMetric(evaluationMetric) then None else multiclassAggregation
    ensures results.Ok? <==> forall g :: 0 <= g < |directoryList| ==>
      Collect(store, directoryList[g], Query(runType, evaluationMetric, aggr, evaluationStat)).Ok?
    ensures results.Ok? ==> |results.value| == |directoryList|
    ensures results.Ok? ==> forall g :: 0 <= g < |directoryList| ==>
      Ok(results.value[g]) == Collect(store, directoryList[g], Query(runType, evaluationMetric, aggr, evaluationStat))
    ensures results.Err? ==> exists g :: (0 <= g < |directoryList|
      && (forall h :: 0 <= h < g ==> Collect(store, directoryList[h], Query(runType, evaluationMetric, aggr, evaluationStat)).Ok?)
      && Collect(store, directoryList[g], Query(runType, evaluationMetric, aggr, evaluationStat)) == Err(results.error))
    ensures noResults <==> results.Ok? && |directoryList| == 0
  {
    var groups: seq<seq<Obj<T>>> := [];
    aggr := multiclassAggregation;
    var i := 0;
    while i < |directoryList|
      invariant 0 <= i <= |directoryList|
      invariant aggr == if i > 0 && IsMultilabelMetric(evaluationMetric) then None else multiclassAggregation
      invariant |groups| == i
      invariant forall g :: 0 <= g < i ==>
        Ok(groups[g]) == Collect(store, directoryList[g], Query(runType, evaluationMetric, aggr, evaluationStat))
    {
      if evaluationMetric in ["ap", "auc"] {
        aggr := None;
      }
      var group := LoadGroupResults(store, directoryList[i], evaluationMetric, evaluationStat, aggr, runType);
      if group.Err? {
        return Err(group.error), aggr, false;
      }
      groups := groups + [group.value];
      i := i + 1;
    }
    results := Ok(groups);
    noResults := |groups| == 0;
  }
}
