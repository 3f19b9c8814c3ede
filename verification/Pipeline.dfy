/** The pre-processing pipeline: stages, then the sink, then the post-sink actions; and what one
    undisturbed run makes of the store. */
module Pipeline {
  import opened Ordering
  import opened Calendar
  import opened DatasetNames
  import opened ObjectStore
  import opened MergeSpec
  import opened MergeRun
  import opened MergeOutcome
  import opened MergeBatch
  import opened MergeFrame
  import opened MergeWindow
  import opened Sink
  import opened Wrappers

  /** A stage that raises gives None. */
  type Stage = Frame -> Option<Frame>

  /** A sink or an action works on the store and may report an error. */
  type Effect = (World, Frame) -> Step

  datatype Outcome = NotConfigured | NoData | StageFailed | Done(df: Frame, error: Option<Error>)

  function RunStages(df: Frame, stages: seq<Stage>): (r: Option<Frame>)
    decreases |stages|
  {
    if stages == [] then Some(df)
    else
      var next := stages[0](df);
      if next.None? then None else RunStages(next.value, stages[1..])
  }

  function RunEffects(w: World, df: Frame, effects: seq<Effect>): (r: Step)
    decreases |effects|
  {
    if effects == [] then Step(w, None)
    else
      var one := effects[0](w, df);
      if one.error.Some? then one else RunEffects(one.w, df, effects[1..])
  }

  /** The order of a run: nothing is written before all stages are through, no action runs before
      the sink is, and the first error ends it. */
  function RunAll(w: World, load: Option<Frame>, stages: seq<Stage>, sink: Effect, actions: seq<Effect>)
    : (r: (World, Outcome))
  {
    if load.None? then (w, NoData)
    else
      var df := RunStages(load.value, stages);
      if df.None? then (w, StageFailed)
      else
        var r := RunEffects(w, df.value, [sink] + actions);
        (r.w, Done(df.value, r.error))
  }

  // ----- what ran, and what is reported -----

  /** `dfs` are the frames the stages saw, each on what the one before it made, up to the first that
      raised. */
  ghost predicate Passed(df: Frame, stages: seq<Stage>, r: Option<Frame>, dfs: seq<Frame>) {
    && 1 <= |dfs| <= |stages| + 1 && dfs[0] == df
    && (forall i | 0 <= i < |dfs| - 1 :: stages[i](dfs[i]) == Some(dfs[i + 1]))
    && if |dfs| == |stages| + 1 then r == Some(dfs[|dfs| - 1])
       else r == None && stages[|dfs| - 1](dfs[|dfs| - 1]) == None
  }

  /** `ws` are the worlds sink and actions saw: each effect that ran found what the one before it left,
      all but the last succeeded, and not all ran only if the last failed; its error is reported. */
  ghost predicate Ran(w: World, df: Frame, effects: seq<Effect>, r: Step, ws: seq<World>) {
    && 1 <= |ws| <= |effects| + 1 && ws[0] == w && ws[|ws| - 1] == r.w
    && (forall i | 0 <= i < |ws| - 1 :: effects[i](ws[i], df).w == ws[i + 1])
    && (forall i | 0 <= i < |ws| - 2 :: effects[i](ws[i], df).error == None)
    && r.error == (if |ws| == 1 then None else effects[|ws| - 2](ws[|ws| - 2], df).error)
    && (|ws| <= |effects| ==> r.error.Some?)
  }

  lemma {:induction false} StagesPassed(df: Frame, stages: seq<Stage>) returns (dfs: seq<Frame>)
    ensures Passed(df, stages, RunStages(df, stages), dfs)
    decreases |stages|
  {
    if stages == [] || stages[0](df).None? {
      dfs := [df];
    } else {
      var rest := StagesPassed(stages[0](df).value, stages[1..]);
      dfs := [df] + rest;
    }
  }

  lemma {:induction false} EffectsRan(w: World, df: Frame, effects: seq<Effect>) returns (ws: seq<World>)
    ensures Ran(w, df, effects, RunEffects(w, df, effects), ws)
    decreases |effects|
  {
    if effects == [] {
      ws := [w];
    } else {
      var one := effects[0](w, df);
      if one.error.Some? {
        ws := [w, one.w];
      } else {
        var rest := EffectsRan(one.w, df, effects[1..]);
        ws := [w] + rest;
      }
    }
  }

  /** What a run of a configured pipeline returns, in terms of what its parts answer. */
  ghost predicate Answers(start: World, load: Option<Frame>, stages: seq<Stage>, sink: Effect, actions: seq<Effect>,
                          w: World, outcome: Outcome)
  {
    && (outcome == NoData <==> load.None?) && outcome != NotConfigured
    && (outcome != NoData ==>
          exists dfs, r :: Passed(load.value, stages, r, dfs) && (outcome == StageFailed <==> r.None?)
                           && (outcome.Done? ==> r == Some(outcome.df)))
    && (!outcome.Done? ==> w == start)
    && (outcome.Done? ==>
          && (exists ws :: Ran(start, outcome.df, [sink] + actions, Step(w, outcome.error), ws))
          && (sink(start, outcome.df).error.Some? ==> Step(w, outcome.error) == sink(start, outcome.df)))
  }

  lemma RunAllAnswers(start: World, load: Option<Frame>, stages: seq<Stage>, sink: Effect, actions: seq<Effect>)
    ensures var (w, outcome) := RunAll(start, load, stages, sink, actions);
      Answers(start, load, stages, sink, actions, w, outcome)
  {
    hide Passed, Ran, RunStages;
    if load.Some? {
      var dfs := StagesPassed(load.value, stages);
      var df := RunStages(load.value, stages);
      if df.Some? {
        var ws := EffectsRan(start, df.value, [sink] + actions);
      }
    }
  }

  class Pipline {
    var stages: seq<Stage>
    var dataSet: Option<Option<Frame>>
    var dataSink: Option<Effect>
    var postSinkActions: seq<Effect>

    constructor ()
      ensures stages == [] && dataSet == None && dataSink == None && postSinkActions == []
    {
      stages, dataSet, dataSink, postSinkActions := [], None, None, [];
    }

    method SetDataSet(load: Option<Frame>)
      modifies this`dataSet
      ensures dataSet == Some(load)
    {
      dataSet := Some(load);
    }

    method SetDataSink(sink: Effect)
      modifies this`dataSink
      ensures dataSink == Some(sink)
    {
      dataSink := Some(sink);
    }

    method AddStage(stage: Stage)
      modifies this`stages
      ensures stages == old(stages) + [stage]
    {
      stages := stages + [stage];
    }

    method AddPostSinkAction(action: Effect)
      modifies this`postSinkActions
      ensures postSinkActions == old(postSinkActions) + [action]
    {
      postSinkActions := postSinkActions + [action];
    }

    method Run(start: World) returns (w: World, outcome: Outcome)
      ensures dataSet.None? || dataSink.None? ==> w == start && outcome == NotConfigured
      ensures dataSet.Some? && dataSink.Some? ==>
        && (w, outcome) == RunAll(start, dataSet.value, stages, dataSink.value, postSinkActions)
        && Answers(start, dataSet.value, stages, dataSink.value, postSinkActions, w, outcome)
    {
      hide Answers;
      if dataSet.Some? && dataSink.Some? {
        RunAllAnswers(start, dataSet.value, stages, dataSink.value, postSinkActions);
      }
      w := start;
      if dataSet.None? || dataSink.None? { return w, NotConfigured; }
      if dataSet.value.None? { return w, NoData; }
      var df := dataSet.value.value;
      for i := 0 to |stages|
        invariant RunStages(dataSet.value.value, stages) == RunStages(df, stages[i..])
      {
        assert stages[i..][0] == stages[i] && stages[i..][1..] == stages[i + 1..];
        var next := stages[i](df);
        if next.None? { return w, StageFailed; }
        df := next.value;
      }
      var saved := dataSink.value(w, df);
      w := saved.w;
      assert ([dataSink.value] + postSinkActions)[1..] == postSinkActions;
      if saved.error.Some? { return w, Done(df, saved.error); }
      for i := 0 to |postSinkActions|
        invariant RunEffects(saved.w, df, postSinkActions) == RunEffects(w, df, postSinkActions[i..])
      {
        assert postSinkActions[i..][0] == postSinkActions[i] && postSinkActions[i..][1..] == postSinkActions[i + 1..];
        var one := postSinkActions[i](w, df);
        w := one.w;
        if one.error.Some? { return w, Done(df, one.error); }
      }
      outcome := Done(df, None);
    }
  }

  // ----- the trade price pipeline -----

  function SaveEffect(o: Oracle): (e: Effect) {
    (w: World, df: Frame) => SaveAll(w, df, GroupKeys(df), o)
  }

  /** `make_batch_merge_action`. */
  function BatchMergeEffect(o: Oracle, tie: Tie): (e: Effect) {
    (w: World, df: Frame) =>
      var pairs := DistinctPairs(df);
      if pairs == [] then Step(w, None)
      else
        var end := BatchMerge(w, pairs, o, tie);
        Step(end.w, end.escaped)
  }

  function PostProcessStage(): (s: Stage) {
    (df: Frame) => Some(PostProcess(df))
  }

  /** The store with one object forgotten. */
  function Without(s: Store, k: Key): (r: Store) {
    map x | x in s && x != k :: s[x]
  }

  /** Unfinished folders of the frame's pairs, as interrupted runs leave them: at most the two files a
      merge writes. */
  ghost predicate TempsClean(s: Store, df: Frame) {
    forall p | p in PairsOf(df) :: CleanTemps(s, p)
  }

  ghost predicate CleanFrame(df: Frame) {
    forall p | p in PairsOf(df) :: CleanPair(p)
  }

  // ----- after the sink -----

  lemma UnderscoreFolder(g: GroupKey)
    requires CleanPair(g.pair)
    ensures InPair(g.Folder(), g.pair) && !("TEMP_" <= g.Folder())
  {
    var f := g.Folder();
    if "TEMP_" <= f {
      assert f == TempName(f[5..]);
      TempIsNoDataset(f[5..], g.pair);
    }
  }

  /** Of a written pair only the object of its own group can change. */
  lemma SavedOnlyGroup(s: Store, df: Frame, p: Pair, k: Key)
    requires Stamped(df) && CleanFrame(df) && p in PairsOf(df) && Group(df, p) != []
    requires IsSource(k, p)
    ensures var r, k0 := Saved(s, df, GroupKeys(df)), Key(KeyFor(df, p).Folder(), PART);
      if k == k0 then k in r && r[k] == Group(df, p) else SameAt(s, r, k)
  {
    hide KeyFor, PlainPair, GroupKeys, Stamped, FolderName, InPair, Saved;
    var gs := GroupKeys(df);
    OneGroupPerPair(df);
    FoldersDiffer(df);
    KeyForPair(df, p);
    SavedAt(s, df, gs, k);
    forall h | h in gs && k.folder == h.Folder() ensures h == KeyFor(df, p) {
      UnderscoreFolder(h);
      PairOfFolderUnique(k.folder, h.pair, p);
      SamePairSameKey(df, gs, h, KeyFor(df, p));
    }
  }

  /** What a reader of a written pair sees after the save: the new rows and all earlier ones except
      those of the object that was overwritten. */
  lemma SavedRows(s: Store, df: Frame, p: Pair)
    requires Stamped(df) && CleanFrame(df) && p in PairsOf(df) && Group(df, p) != []
    ensures Rows(Saved(s, df, GroupKeys(df)), p) ==
      Elements(Group(df, p)) + Rows(Without(s, Key(KeyFor(df, p).Folder(), PART)), p)
  {
    hide KeyFor, PlainPair, CleanFrame, Group, GroupKeys, Stamped, FolderName, InPair, Saved, PairsOf;
    var r, k0 := Saved(s, df, GroupKeys(df)), Key(KeyFor(df, p).Folder(), PART);
    assert InPair(k0.folder, p) by { KeyForPair(df, p); FrameClean(df, p); UnderscoreFolder(KeyFor(df, p)); }
    forall k | IsSource(k, p)
      ensures if k == k0 then k in r && r[k] == Group(df, p) else SameAt(Without(s, k0), r, k) {
      SavedOnlyGroup(s, df, p, k);
    }
    forall x ensures x in Rows(r, p) <==> x in Elements(Group(df, p)) + Rows(Without(s, k0), p) {
      if x in Rows(r, p) {
        var k :| k in r && IsSource(k, p) && x in r[k];
      }
      if x in Rows(Without(s, k0), p) {
        var k :| k in Without(s, k0) && IsSource(k, p) && x in Without(s, k0)[k];
        assert SameAt(Without(s, k0), r, k);
      }
      if x in Group(df, p) {
        assert IsSource(k0, p);
      }
    }
  }

  lemma FrameClean(df: Frame, p: Pair)
    requires CleanFrame(df) && p in PairsOf(df)
    ensures CleanPair(p)
  {}

  lemma SamePairSameKey(df: Frame, gs: seq<GroupKey>, h: GroupKey, g: GroupKey)
    requires h in gs && g in gs && h.pair == g.pair
    requires forall i, j :: 0 <= i < j < |gs| ==> gs[i].pair != gs[j].pair
    ensures h == g
  {
  }

  /** The save adds no unfinished folder and touches nothing outside the frame's pairs. */
  lemma SavedElsewhere(s: Store, df: Frame, k: Key)
    requires Stamped(df) && CleanFrame(df)
    ensures (forall p | p in PairsOf(df) :: !InPair(k.folder, p)) ==> SameAt(s, Saved(s, df, GroupKeys(df)), k)
  {
    hide KeyFor, PlainPair, GroupKeys, Stamped, FolderName, InPair, Saved;
    OneGroupPerPair(df);
    FoldersDiffer(df);
    SavedAt(s, df, GroupKeys(df), k);
    forall g | g in GroupKeys(df) ensures InPair(g.Folder(), g.pair) {
      UnderscoreFolder(g);
    }
  }

  lemma SavedTempsClean(s: Store, df: Frame, p: Pair)
    requires Stamped(df) && CleanFrame(df) && TempsClean(s, df) && p in PairsOf(df)
    ensures TempClean(Saved(s, df, GroupKeys(df)), p)
  {
    hide PlainPair, GroupKeys, Stamped, InPair, Saved, IsTemp;
    var r := Saved(s, df, GroupKeys(df));
    forall k | k in r && IsTemp(k.folder, p) ensures k.file == PART || k.file == Marker {
      forall q | q in PairsOf(df) ensures !InPair(k.folder, q) {
        NoDatasetOfAny(k.folder, p, q);
      }
      SavedElsewhere(s, df, k);
    }
    CleanTempsSuffice(r, p);
  }

  lemma NoDatasetOfAny(folder: string, p: Pair, q: Pair)
    requires IsTemp(folder, p) && CleanPair(q)
    ensures !InPair(folder, q)
  {
    assert folder == TempName(folder[5..]);
    TempIsNoDataset(folder[5..], q);
  }

  // ----- a whole run -----

  /** One undisturbed run of sink and post-action merge over a post-processed frame. Each pair of
      the frame ends with one folder, named by the exact first and last day, strictly sorted by
      `trade_time`; its keys are the frame's and those of every earlier object of the pair except
      one the sink overwrote by name; every row is an input row. Nothing else changes. */
  lemma EndToEnd(w: World, df: Frame, o: Oracle, tie: Tie, p: Pair)
    requires Stamped(df) && CleanFrame(df) && AllOk(o) && TempsClean(w.store, df)
    requires p in PairsOf(df) && Group(df, p) != []
    ensures var r := RunEffects(w, df, [SaveEffect(o), BatchMergeEffect(o, tie)]);
      var s, t := w.store, r.w.store;
      var earlier := Without(s, Key(KeyFor(df, p).Folder(), PART));
      && r.error.None?
      && Times(t, p) == TimesOf(Elements(Group(df, p))) + Times(earlier, p)
      && Rows(t, p) <= Elements(Group(df, p)) + Rows(earlier, p)
      && Rows(t, p) != {} && Sources(t, p) == {Key(TargetName(Rows(t, p), p), PART)}
      && TimesIncrease(t[Key(TargetName(Rows(t, p), p), PART)])
  {
    hide KeyFor, PlainPair, GroupKeys, Stamped, FolderName, InPair, Saved, BatchMerge, BatchOnce, SaveAll, TargetName,
         MergeOnce, Merged;
    var s1 := Saved(w.store, df, GroupKeys(df));
    RunIs(w, df, o, tie);
    SavedRows(w.store, df, p);
    var tasks := DistinctPairs(df);
    var t := BatchOnce(s1, tasks, tie);
    BatchReads(s1, tasks, tie, p);
    assert Rows(s1, p) != {} by { assert Group(df, p)[0] in Rows(s1, p); }
    MergeConserves(s1, p, tie);
    MergedSorted(Rows(s1, p), tie);
    var data := Key(TargetName(Rows(s1, p), p), PART);
    var m := MergeOnce(s1, p, tie);
    RegionSources(t, m, p);
    assert data in Sources(m, p);
    UnionTimes(Elements(Group(df, p)), Rows(Without(w.store, Key(KeyFor(df, p).Folder(), PART)), p));
  }

  lemma UnionTimes(a: set<Row>, b: set<Row>)
    ensures TimesOf(a + b) == TimesOf(a) + TimesOf(b)
  {
  }

  lemma RegionSources(s: Store, t: Store, p: Pair)
    requires Region(s, p) == Region(t, p)
    ensures Sources(s, p) == Sources(t, p) && forall k | k in Sources(s, p) :: s[k] == t[k]
  {
    forall k | IsSource(k, p) ensures SameAt(s, t, k) {
      AtRegion(s, k, p);
      AtRegion(t, k, p);
    }
  }

  lemma GroupsOfPairs(df: Frame, g: GroupKey)
    requires g in GroupKeys(df)
    ensures g.pair in PairsOf(df)
  {
    var keys := seq(|df|, i requires 0 <= i < |df| => KeyOf(df[i]));
    assert g in keys;
    var i :| 0 <= i < |keys| && keys[i] == g;
    assert df[i] in df;
  }

  lemma SaveIsLocal(w: World, df: Frame, o: Oracle, k: Key)
    requires CleanFrame(df) && forall p | p in PairsOf(df) :: !InRegion(k, p)
    ensures SameAt(w.store, SaveAll(w, df, GroupKeys(df), o).w.store, k)
  {
    hide PlainPair, GroupKeys, PairsOf, FolderName, InPair, SaveAll, Group;
    SaveFrame(w, df, GroupKeys(df), o, k);
    forall g | g in GroupKeys(df) ensures k.folder != g.Folder() {
      GroupsOfPairs(df, g);
      UnderscoreFolder(g);
    }
  }

  /** Whatever fails in a run of sink and merge, and wherever it ends, objects outside the regions of
      the frame's pairs are untouched. */
  lemma EndToEndFrame(w: World, df: Frame, o: Oracle, tie: Tie, k: Key)
    requires CleanFrame(df) && forall p | p in PairsOf(df) :: !InRegion(k, p)
    ensures SameAt(w.store, RunEffects(w, df, [SaveEffect(o), BatchMergeEffect(o, tie)]).w.store, k)
  {
    hide PlainPair, GroupKeys, InRegion, BatchMerge, SaveAll;
    SaveIsLocal(w, df, o, k);
    var one := SaveAll(w, df, GroupKeys(df), o);
    BatchIsLocal(one.w, DistinctPairs(df), o, tie, k);
    var effects := [SaveEffect(o), BatchMergeEffect(o, tie)];
    assert effects[0](w, df) == one;
    assert effects[1..] == [BatchMergeEffect(o, tie)] && effects[1..][1..] == [];
    var two := effects[1](one.w, df);
    assert RunEffects(one.w, df, effects[1..]) == if two.error.Some? then two else RunEffects(two.w, df, []);
  }

  /** The post-processing changes neither the pairs of a frame nor what they are to be written as. */
  lemma PostProcessKeepsPairs(raw: Frame, p: Pair)
    ensures Group(PostProcess(raw), p) == Group(raw, p)
    ensures p in PairsOf(PostProcess(raw)) <==> p in PairsOf(raw)
    ensures p in PairsOf(raw) ==> Group(raw, p) != [] && KeyFor(PostProcess(raw), p) == KeyFor(raw, p)
  {
    PostProcessStamps(raw);
    GroupMembers(raw, p);
    GroupMembers(PostProcess(raw), p);
    hide Group, PairsOf, PostProcess, MinDate, MaxDate;
  }

  lemma PostProcessKeepsClean(raw: Frame, s: Store)
    requires CleanFrame(raw) && TempsClean(s, raw)
    ensures CleanFrame(PostProcess(raw)) && TempsClean(s, PostProcess(raw))
  {
    hide PostProcess, PairsOf, PlainPair, CleanTemps;
    forall q | q in PairsOf(PostProcess(raw)) ensures CleanPair(q) && CleanTemps(s, q) {
      PostProcessKeepsPairs(raw, q);
    }
  }

  lemma OneStage(w: World, raw: Frame, sink: Effect, actions: seq<Effect>)
    ensures var df := PostProcess(raw);
      var r := RunEffects(w, df, [sink] + actions);
      RunAll(w, Some(raw), [PostProcessStage()], sink, actions) == (r.w, Done(df, r.error))
  {
    hide RunEffects, PostProcess;
    assert RunStages(raw, [PostProcessStage()]) == RunStages(PostProcess(raw), []);
  }

  /** The whole run from the raw frame on, with the post-processing as its stage. */
  lemma WholeRun(w: World, raw: Frame, o: Oracle, tie: Tie, p: Pair)
    requires CleanFrame(raw) && AllOk(o) && TempsClean(w.store, raw) && p in PairsOf(raw)
    ensures var (r, outcome) := RunAll(w, Some(raw), [PostProcessStage()], SaveEffect(o), [BatchMergeEffect(o, tie)]);
      && outcome == Done(PostProcess(raw), None) && Group(raw, p) != []
      && var earlier := Without(w.store, Key(KeyFor(raw, p).Folder(), PART));
      && Times(r.store, p) == TimesOf(Elements(Group(raw, p))) + Times(earlier, p)
      && Rows(r.store, p) <= Elements(Group(raw, p)) + Rows(earlier, p)
      && Rows(r.store, p) != {} && Sources(r.store, p) == {Key(TargetName(Rows(r.store, p), p), PART)}
      && TimesIncrease(r.store[Key(TargetName(Rows(r.store, p), p), PART)])
  {
    hide RunAll, RunEffects, KeyFor, PlainPair, CleanFrame, GroupKeys, Stamped, Group, PairsOf, PostProcess;
    hide TargetName, Times, Rows, Sources, TimesIncrease, Without, SaveEffect, BatchMergeEffect, TempsClean, AllOk;
    var df := PostProcess(raw);
    PostProcessStamps(raw);
    PostProcessKeepsPairs(raw, p);
    PostProcessKeepsClean(raw, w.store);
    OneStage(w, raw, SaveEffect(o), [BatchMergeEffect(o, tie)]);
    assert [SaveEffect(o)] + [BatchMergeEffect(o, tie)] == [SaveEffect(o), BatchMergeEffect(o, tie)];
    EndToEnd(w, df, o, tie, p);
  }

  /** Without failures the run is the save followed by the batch of merges. */
  lemma RunIs(w: World, df: Frame, o: Oracle, tie: Tie)
    requires Stamped(df) && CleanFrame(df) && AllOk(o) && TempsClean(w.store, df)
    ensures var r := RunEffects(w, df, [SaveEffect(o), BatchMergeEffect(o, tie)]);
      && r.error.None?
      && r.w.store == BatchOnce(Saved(w.store, df, GroupKeys(df)), DistinctPairs(df), tie)
  {
    hide PlainPair, GroupKeys, Stamped, Saved, BatchMerge, SaveAll, TempClean;
    SaveAllOk(w, df, GroupKeys(df), o);
    var one := SaveAll(w, df, GroupKeys(df), o);
    forall p | p in DistinctPairs(df) ensures TempClean(one.w.store, p) {
      SavedTempsClean(w.store, df, p);
    }
    UndisturbedBatch(one.w, DistinctPairs(df), o, tie);
    var effects := [SaveEffect(o), BatchMergeEffect(o, tie)];
    assert effects[1..] == [BatchMergeEffect(o, tie)] && effects[1..][1..] == [];
    assert effects[0](w, df) == one;
    var two := effects[1](one.w, df);
    assert two.error.None? && two.w.store == BatchOnce(one.w.store, DistinctPairs(df), tie);
    assert RunEffects(two.w, df, []) == Step(two.w, None);
    assert RunEffects(one.w, df, effects[1..]) == RunEffects(two.w, df, effects[1..][1..]);
  }
}
