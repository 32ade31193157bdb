/** The wide model client and the hot swap of models: what the client records about the loaded model,
    in one operation and over all interleavings of operations. */
module WideModel {
  import opened Wrappers
  import opened Text
  import opened ModelRegistry

  // ---------- One operation at a time ----------

  datatype InferenceCall = GenerateCall(prompt: string) | PullCall(path: string) | DeleteCall(reason: string)

  /** What a directory scan of ModelDir/wide/active finds. */
  datatype ModelFile = ModelFile(name: string, isDir: bool)

  /** The resource audit before a load: raw model not ready, a failed call, or an answer. */
  datatype Audit = NotReady | AuditFailed | Allowed(allowed: bool)

  predicate Forbids(a: Audit) {
    a.Allowed? && !a.allowed
  }

  predicate IsModelFile(f: ModelFile) {
    !f.isDir && (HasSuffix(f.name, ".gguf") || HasSuffix(f.name, ".safetensors"))
  }

  class WideModelClient {
    var loaded: bool
    var modelName: string
    var modelID: string
    var systemPrompt: string
    ghost var calls: seq<InferenceCall>

    constructor ()
      ensures Valid() && !loaded && systemPrompt == "" && calls == []
    {
      loaded, modelName, modelID, systemPrompt, calls := false, "", "", "", [];
    }

    /** The client's record of the model. */
    ghost function Record(): (bool, string, string)
      reads this
    {
      (loaded, modelName, modelID)
    }

    /** Not loaded means no name and no id. */
    ghost predicate Valid()
      reads this
    {
      !loaded ==> modelName == "" && modelID == ""
    }

    /** One generation request: the prompt, after the system prompt if there is one. */
    method Generate(prompt: string, answer: Result<string>) returns (r: Result<string>)
      requires Valid()
      modifies this
      ensures Valid() && r == answer
      ensures calls == old(calls)
          + [GenerateCall(if systemPrompt == "" then prompt else systemPrompt + "\n\n" + prompt)]
        && systemPrompt == old(systemPrompt)
      ensures Record() == if answer.Success? then (true, "wide-model", old(modelID)) else old(Record())
    {
      var fullPrompt := prompt;
      if systemPrompt != "" {
        fullPrompt := systemPrompt + "\n\n" + prompt;
      }
      calls := calls + [GenerateCall(fullPrompt)];
      if answer.Success? {
        loaded := true;
        modelName := "wide-model";
      }
      r := answer;
    }

    method LoadWithID(path: string, id: string, ok: bool) returns (done: bool)
      requires Valid()
      modifies this
      ensures Valid() && done == ok
      ensures calls == old(calls) + [PullCall(path)] && systemPrompt == old(systemPrompt)
      ensures Record() == if ok then (true, path, id) else old(Record())
    {
      calls := calls + [PullCall(path)];
      if ok {
        loaded, modelName, modelID := true, path, id;
      }
      done := ok;
    }

    /** Any HTTP answer counts as done, whatever its status. */
    method Unload(reason: string, ok: bool) returns (done: bool)
      requires Valid()
      modifies this
      ensures Valid() && done == ok
      ensures calls == old(calls) + [DeleteCall(reason)] && systemPrompt == old(systemPrompt)
      ensures Record() == if ok then (false, "", "") else old(Record())
    {
      calls := calls + [DeleteCall(reason)];
      if ok {
        loaded, modelName, modelID := false, "", "";
      }
      done := ok;
    }

    method SetSystemPrompt(prompt: string)
      requires Valid()
      modifies this
      ensures Valid() && Record() == old(Record()) && calls == old(calls) && systemPrompt == prompt
    {
      systemPrompt := prompt;
    }

    method LoadedModelID() returns (id: string)
      requires Valid()
      ensures id == modelID
    {
      id := if loaded then modelID else "";
    }

    method LoadedModelName() returns (name: string)
      requires Valid()
      ensures name == modelName
    {
      name := if loaded then modelName else "";
    }

    /** hotSwapWideModel, nothing else touching the client. Success with an id ends with that id loaded;
        failure leaves the record as it was, or cleared; an id the registry lacks costs no call. */
    method HotSwap(id: string, registry: Registry, deleted: bool, pulled: bool, merged: string) returns (ok: bool)
      requires Valid()
      modifies this
      ensures Valid()
      ensures ok && id != "" ==> loaded && modelID == id
      ensures !ok ==> Record() == old(Record()) || Record() == (false, "", "")
      ensures id == "" || id == old(modelID) ==> ok && Record() == old(Record()) && calls == old(calls)
      ensures var hit := id in registry.models && registry.models[id].ggufPath != "";
        id != "" && id != old(modelID) ==>
          ok == (hit && pulled)
          && calls == old(calls) + (if hit then [DeleteCall("swap"), PullCall(registry.models[id].ggufPath)] else [])
          && Record() == (if !hit then old(Record())
                          else if pulled then (true, registry.models[id].ggufPath, id)
                          else if deleted then (false, "", "")
                          else old(Record()))
      ensures systemPrompt == if ok && id != "" && id != old(modelID) && merged != "" then merged else old(systemPrompt)
    {
      if id == "" {
        return true;
      }
      var currentID := LoadedModelID();
      if currentID == id {
        return true;
      }
      var ggufPath := registry.Resolve(id);
      if ggufPath == "" {
        return false;
      }
      var unloaded := Unload("swap", deleted);
      var done := LoadWithID(ggufPath, id, pulled);
      if !done {
        return false;
      }
      if merged != "" {
        SetSystemPrompt(merged);
      }
      ok := true;
    }

    /** loadWideModel at startup: the registry in the order Go's map gives it, then the directory. The
        first model that loads ends it; a forbidding audit ends it with nothing loaded; only when the whole
        registry failed is the first model file of the directory tried, under no id. Audits and pulls are
        the answers, attempt by attempt. */
    method LoadWideModel(registry: Registry, order: seq<string>, dir: string, files: Option<seq<ModelFile>>,
                         audits: nat -> Audit, pulls: nat -> bool, merged: string) returns (ok: bool)
      requires Valid() && forall id | id in order :: id in registry.models
      modifies this
      ensures Valid() && (!ok ==> Record() == old(Record()) && systemPrompt == old(systemPrompt))
      ensures var k := FirstEnd(0, |order|, audits, pulls); k < |order| ==>
        ok == !Forbids(audits(k))
        && (ok ==> Record() == (true, registry.models[order[k]].ggufPath, order[k])
                   && systemPrompt == if merged != "" then merged else old(systemPrompt))
        && calls == old(calls) + Pulls(registry.models, order, if ok then k + 1 else k)
      ensures FirstEnd(0, |order|, audits, pulls) == |order| && NoModelFile(files) ==>
        !ok && calls == old(calls) + Pulls(registry.models, order, |order|)
      ensures FirstEnd(0, |order|, audits, pulls) == |order| && files.Some? ==>
        forall i | FirstModelFile(files.value, i) ::
        var path, allowed := dir + "/" + files.value[i].name, !Forbids(audits(|order|));
        ok == (allowed && pulls(|order|)) && (ok ==> Record() == (true, path, "") && systemPrompt == old(systemPrompt))
        && calls == old(calls) + Pulls(registry.models, order, |order|) + if allowed then [PullCall(path)] else []
    {
      hide IsModelFile, Valid, FirstModelFile;
      for k := 0 to |order|
        invariant Valid() && Record() == old(Record()) && systemPrompt == old(systemPrompt)
        invariant FirstEnd(k, |order|, audits, pulls) == FirstEnd(0, |order|, audits, pulls)
        invariant calls == old(calls) + Pulls(registry.models, order, k)
      {
        if Forbids(audits(k)) {
          return false;
        }
        var id := order[k];
        var done := LoadWithID(registry.models[id].ggufPath, id, pulls(k));
        assert Pulls(registry.models, order, k + 1) == Pulls(registry.models, order, k)
          + [PullCall(registry.models[id].ggufPath)];
        if done {
          if merged != "" {
            SetSystemPrompt(merged);
          }
          return true;
        }
      }
      if files.None? {
        return false;
      }
      ok := LoadFromDirectory(dir, files.value, audits(|order|), pulls(|order|));
    }

    /** The scan of the directory. */
    method LoadFromDirectory(dir: string, files: seq<ModelFile>, audit: Audit, pull: bool) returns (ok: bool)
      requires Valid()
      modifies this
      ensures Valid() && systemPrompt == old(systemPrompt) && (!ok ==> Record() == old(Record()))
      ensures (forall f | f in files :: !IsModelFile(f)) ==> !ok && calls == old(calls)
      ensures forall i | FirstModelFile(files, i) ::
        var path, allowed := dir + "/" + files[i].name, !Forbids(audit);
        ok == (allowed && pull) && (ok ==> Record() == (true, path, ""))
        && calls == old(calls) + if allowed then [PullCall(path)] else []
    {
      hide IsModelFile;
      for k := 0 to |files|
        invariant Valid() && Record() == old(Record()) && calls == old(calls) && systemPrompt == old(systemPrompt)
        invariant forall j | 0 <= j < k :: !IsModelFile(files[j])
      {
        if IsModelFile(files[k]) {
          assert files[k] in files;
          if Forbids(audit) {
            return false;
          }
          ok := LoadWithID(dir + "/" + files[k].name, "", pull);
          return;
        }
      }
      ok := false;
    }
  }

  /** A model file is told by its name: it ends in one of two suffixes. */
  lemma {:induction false} ModelFileNames(f: ModelFile)
    ensures IsModelFile(f) <==> !f.isDir && exists x :: f.name == x + ".gguf" || f.name == x + ".safetensors"
  {
    var n := |f.name|;
    if HasSuffix(f.name, ".gguf") {
      assert f.name == f.name[..n - 5] + ".gguf";
    }
    if HasSuffix(f.name, ".safetensors") {
      assert f.name == f.name[..n - 12] + ".safetensors";
    }
    forall x | f.name == x + ".gguf" || f.name == x + ".safetensors"
      ensures HasSuffix(f.name, ".gguf") || HasSuffix(f.name, ".safetensors")
    {
      assert f.name[|x|..] == ".gguf" || f.name[|x|..] == ".safetensors";
    }
  }

  /** The first attempt from the k-th on that ends the startup, by a forbidding audit or by loading; n if
      none before n does. */
  function FirstEnd(k: nat, n: nat, audits: nat -> Audit, pulls: nat -> bool): (r: nat)
    requires k <= n
    ensures k <= r <= n && (r < n ==> Forbids(audits(r)) || pulls(r))
    ensures forall j | k <= j < r :: !Forbids(audits(j)) && !pulls(j)
    decreases n - k
  {
    if k == n || Forbids(audits(k)) || pulls(k) then k else FirstEnd(k + 1, n, audits, pulls)
  }

  /** The first k registry models, asked for in order. */
  function Pulls(models: map<string, Entry>, order: seq<string>, k: nat): seq<InferenceCall>
    requires k <= |order| && forall id | id in order :: id in models
  {
    seq(k, i requires 0 <= i < k => PullCall(models[order[i]].ggufPath))
  }

  predicate NoModelFile(files: Option<seq<ModelFile>>) {
    files.None? || forall f | f in files.value :: !IsModelFile(f)
  }

  ghost predicate FirstModelFile(files: seq<ModelFile>, i: int) {
    0 <= i < |files| && IsModelFile(files[i]) && forall j | 0 <= j < i :: !IsModelFile(files[j])
  }

  // ---------- All interleavings ----------

  datatype LoadRecord = LoadedAs(path: string, id: string) | Cleared

  /** An operation by how far it has come; each change of the record or the prompt is a step of its own,
      under the lock. merged is the system prompt read for it. */
  datatype Job =
    | SwapStart(id: string)
    | SwapResolve(id: string)
    | SwapUnload(id: string, path: string)
    | Loading(path: string, id: string, merged: string)
    | SettingPrompt(id: string, merged: string)
    | Unloading
    | Generating
    | Finished

  /** prompter is the id that the last SetSystemPrompt was for. */
  datatype Tracking = Tracking(loaded: bool, name: string, id: string, prompt: string, prompter: Option<string>,
                               records: seq<LoadRecord>, registry: map<string, Entry>, built: bool,
                               jobs: map<nat, Job>, next: nat)

  datatype Label =
    | Build(models: map<string, Entry>)
    | Swap(id: string)
    | Load(path: string)
    | LoadRegistered(id: string, merged: string)
    | StartUnload
    | StartGenerate
    | Step(t: nat, ok: bool, merged: string)

  function Init(): Tracking {
    Tracking(false, "", "", "", None, [], map[], false, map[], 0)
  }

  function Begin(s: Tracking, job: Job): Tracking {
    s.(jobs := s.jobs[s.next := job], next := s.next + 1)
  }

  predicate Enabled(s: Tracking, l: Label) {
    match l
    case Build(_) => !s.built
    case LoadRegistered(id, _) => id in s.registry
    case Step(t, _, _) => t in s.jobs && !s.jobs[t].Finished?
    case _ => true
  }

  function PathOf(registry: map<string, Entry>, id: string): string {
    if id in registry then registry[id].ggufPath else ""
  }

  function Become(s: Tracking, t: nat, job: Job): Tracking {
    s.(jobs := s.jobs[t := job])
  }

  function RecordLoad(s: Tracking, path: string, id: string): Tracking {
    s.(loaded := true, name := path, id := id, records := s.records + [LoadedAs(path, id)])
  }

  function RecordUnload(s: Tracking): Tracking {
    s.(loaded := false, name := "", id := "", records := s.records + [Cleared])
  }

  /** Job t takes its next step. */
  function TakeStep(s: Tracking, t: nat, ok: bool, merged: string): Tracking
    requires t in s.jobs
  {
    match s.jobs[t]
    case SwapStart(id) => Become(s, t, if s.loaded && s.id == id then Finished else SwapResolve(id))
    case SwapResolve(id) =>
      var path := PathOf(s.registry, id);
      Become(s, t, if path == "" then Finished else SwapUnload(id, path))
    case SwapUnload(id, path) => Become(if ok then RecordUnload(s) else s, t, Loading(path, id, merged))
    case Loading(path, id, text) =>
      if ok then Become(RecordLoad(s, path, id), t, if text == "" then Finished else SettingPrompt(id, text))
      else Become(s, t, Finished)
    case SettingPrompt(id, text) => Become(s.(prompt := text, prompter := Some(id)), t, Finished)
    case Unloading => Become(if ok then RecordUnload(s) else s, t, Finished)
    case Generating => Become(if ok then s.(loaded := true, name := "wide-model") else s, t, Finished)
    case Finished => s
  }

  function Apply(s: Tracking, l: Label): Tracking
    requires Enabled(s, l)
  {
    match l
    case Build(models) => s.(registry := models, built := true)
    case Swap(id) => if id == "" then s else Begin(s, SwapStart(id))
    case Load(path) => Begin(s, Loading(path, "", ""))
    case LoadRegistered(id, merged) => Begin(s, Loading(s.registry[id].ggufPath, id, merged))
    case StartUnload => Begin(s, Unloading)
    case StartGenerate => Begin(s, Generating)
    case Step(t, ok, merged) => TakeStep(s, t, ok, merged)
  }

  predicate CanRun(s: Tracking, ls: seq<Label>)
    decreases |ls|, 0
  {
    ls == [] || (CanRun(s, ls[..|ls| - 1]) && Enabled(After(s, ls[..|ls| - 1]), ls[|ls| - 1]))
  }

  function After(s: Tracking, ls: seq<Label>): Tracking
    requires CanRun(s, ls)
    decreases |ls|, 1
  {
    if ls == [] then s else Apply(After(s, ls[..|ls| - 1]), ls[|ls| - 1])
  }

  /** The id of the latest load record, if no unload record follows it. */
  function LatestID(records: seq<LoadRecord>): string {
    if records == [] || records[|records| - 1].Cleared? then "" else records[|records| - 1].id
  }

  predicate JobOk(s: Tracking, job: Job) {
    match job
    case SwapUnload(id, path) => id in s.registry && path == s.registry[id].ggufPath
    case Loading(path, id, _) => id != "" ==> id in s.registry && path == s.registry[id].ggufPath
    case _ => true
  }

  ghost predicate RecordTracks(s: Tracking) {
    (!s.loaded ==> s.name == "" && s.id == "")
    && s.id == LatestID(s.records)
    && (s.id != "" ==> s.loaded && s.id in s.registry)
    && (!s.built ==> s.registry == map[])
  }

  ghost predicate JobsTrack(s: Tracking) {
    forall t | t in s.jobs :: JobOk(s, s.jobs[t])
  }

  ghost predicate Tracks(s: Tracking) {
    RecordTracks(s) && JobsTrack(s)
  }

  ghost predicate Recorded(records: seq<LoadRecord>, id: string) {
    exists k :: 0 <= k < |records| && records[k].LoadedAs? && records[k].id == id
  }

  /** The system prompt was set for an id whose load was recorded, and so will be those about to be set. */
  ghost predicate PromptTracks(s: Tracking) {
    (if s.prompter.None? then s.prompt == "" else s.prompt != "" && Recorded(s.records, s.prompter.value))
    && JobsPrompt(s.jobs, s.records)
  }

  ghost predicate JobPrompts(job: Job, records: seq<LoadRecord>) {
    job.SettingPrompt? ==> job.merged != "" && Recorded(records, job.id)
  }

  ghost predicate JobsPrompt(jobs: map<nat, Job>, records: seq<LoadRecord>) {
    forall t | t in jobs :: JobPrompts(jobs[t], records)
  }

  lemma {:induction false} JobsPromptSet(jobs: map<nat, Job>, records: seq<LoadRecord>, t: nat, job: Job)
    requires JobsPrompt(jobs, records) && JobPrompts(job, records)
    ensures JobsPrompt(jobs[t := job], records)
  {
    hide Recorded;
  }

  lemma {:induction false} JobsPromptMore(jobs: map<nat, Job>, records: seq<LoadRecord>, latest: LoadRecord)
    requires JobsPrompt(jobs, records)
    ensures JobsPrompt(jobs, records + [latest])
  {
    hide Recorded;
    forall t | t in jobs
      ensures JobPrompts(jobs[t], records + [latest])
    {
      assert JobPrompts(jobs[t], records);
      if jobs[t].SettingPrompt? {
        RecordedMore(records, latest, jobs[t].id);
      }
    }
  }

  lemma {:induction false} RecordedMore(records: seq<LoadRecord>, r: LoadRecord, id: string)
    ensures Recorded(records, id) ==> Recorded(records + [r], id)
    ensures r.LoadedAs? ==> Recorded(records + [r], r.id)
  {
    forall k | 0 <= k < |records| && records[k].LoadedAs? && records[k].id == id
      ensures Recorded(records + [r], id)
    {
      assert (records + [r])[k] == records[k];
    }
    assert (records + [r])[|records|] == r;
  }

  lemma {:induction false} PromptTracksJob(s: Tracking, t: nat, ok: bool, merged: string)
    requires PromptTracks(s) && t in s.jobs
    ensures PromptTracks(TakeStep(s, t, ok, merged))
  {
    hide Recorded, JobsPrompt;
    var s', job := TakeStep(s, t, ok, merged), s.jobs[t];
    JobPromptsIn(s.jobs, s.records, t);
    if s'.records != s.records {
      var latest := if job.Loading? then LoadedAs(job.path, job.id) else Cleared;
      JobsPromptMore(s.jobs, s.records, latest);
      RecordedMore(s.records, latest, if s.prompter.Some? then s.prompter.value else "");
    }
    JobsPromptSet(s.jobs, s'.records, t, s'.jobs[t]);
    assert s'.jobs == s.jobs[t := s'.jobs[t]];
  }

  lemma {:induction false} JobPromptsIn(jobs: map<nat, Job>, records: seq<LoadRecord>, t: nat)
    requires JobsPrompt(jobs, records) && t in jobs
    ensures JobPrompts(jobs[t], records)
  {
  }

  lemma {:induction false} PromptTracksStep(s: Tracking, l: Label)
    requires PromptTracks(s) && Enabled(s, l)
    ensures PromptTracks(Apply(s, l))
  {
    hide Recorded, TakeStep, JobsPrompt;
    if l.Step? {
      PromptTracksJob(s, l.t, l.ok, l.merged);
    } else {
      var s' := Apply(s, l);
      if s'.jobs != s.jobs {
        JobsPromptSet(s.jobs, s.records, s.next, s'.jobs[s.next]);
      }
    }
  }

  lemma {:induction false} RecordTracksJob(s: Tracking, t: nat, ok: bool, merged: string)
    requires RecordTracks(s) && t in s.jobs && JobOk(s, s.jobs[t])
    ensures RecordTracks(TakeStep(s, t, ok, merged))
  {
  }

  lemma {:induction false} RecordTracksStep(s: Tracking, l: Label)
    requires Tracks(s) && Enabled(s, l)
    ensures RecordTracks(Apply(s, l))
  {
    hide TakeStep;
    if l.Step? {
      assert JobOk(s, s.jobs[l.t]);
      RecordTracksJob(s, l.t, l.ok, l.merged);
    }
    hide JobsTrack;
  }

  lemma {:induction false} JobsTrackJob(s: Tracking, t: nat, ok: bool, merged: string)
    requires JobsTrack(s) && t in s.jobs
    ensures JobsTrack(TakeStep(s, t, ok, merged))
  {
    var s' := TakeStep(s, t, ok, merged);
    assert JobOk(s, s.jobs[t]) && s'.registry == s.registry;
    forall u | u in s'.jobs
      ensures JobOk(s', s'.jobs[u])
    {
      assert u != t ==> u in s.jobs && s'.jobs[u] == s.jobs[u] && JobOk(s, s.jobs[u]);
    }
  }

  lemma {:induction false} JobsTrackStep(s: Tracking, l: Label)
    requires Tracks(s) && Enabled(s, l)
    ensures JobsTrack(Apply(s, l))
  {
    hide LatestID, TakeStep;
    if l.Step? {
      JobsTrackJob(s, l.t, l.ok, l.merged);
    } else {
      var s' := Apply(s, l);
      forall t | t in s'.jobs
        ensures JobOk(s', s'.jobs[t])
      {
        assert t in s.jobs ==> JobOk(s, s.jobs[t]);
      }
    }
  }

  lemma {:induction false} TracksStep(s: Tracking, l: Label)
    requires Tracks(s) && Enabled(s, l)
    ensures Tracks(Apply(s, l))
  {
    RecordTracksStep(s, l);
    JobsTrackStep(s, l);
  }

  /** In every run with the one registry build: not loaded means no name and no id; the id is always that
      of the latest load record not followed by an unload; a non-empty id is of the registry; and a system
      prompt is one that an operation set after its own load was recorded. */
  lemma {:induction false} RunTracks(ls: seq<Label>)
    requires CanRun(Init(), ls)
    ensures Tracks(After(Init(), ls)) && PromptTracks(After(Init(), ls))
    decreases |ls|
  {
    hide Apply, Enabled;
    if ls != [] {
      hide Tracks, PromptTracks;
      RunTracks(ls[..|ls| - 1]);
      PromptTracksStep(After(Init(), ls[..|ls| - 1]), ls[|ls| - 1]);
      TracksStep(After(Init(), ls[..|ls| - 1]), ls[|ls| - 1]);
    }
  }

  lemma {:induction false} OneMore(s: Tracking, ls: seq<Label>, l: Label)
    requires CanRun(s, ls) && Enabled(After(s, ls), l)
    ensures CanRun(s, ls + [l]) && After(s, ls + [l]) == Apply(After(s, ls), l)
  {
    assert (ls + [l])[..|ls + [l]| - 1] == ls;
  }

  /** The state that the steps lead to, from s on; they must be possible. */
  ghost predicate Leads(s: Tracking, steps: seq<Label>, end: Tracking)
    decreases |steps|
  {
    if steps == [] then s == end else Enabled(s, steps[0]) && Leads(Apply(s, steps[0]), steps[1..], end)
  }

  lemma {:induction false} LeadsRun(ls: seq<Label>, steps: seq<Label>, end: Tracking)
    requires CanRun(Init(), ls) && Leads(After(Init(), ls), steps, end)
    ensures CanRun(Init(), ls + steps) && After(Init(), ls + steps) == end
    decreases |steps|
  {
    hide Enabled, Apply;
    if steps == [] {
      assert ls + steps == ls;
    } else {
      OneMore(Init(), ls, steps[0]);
      LeadsRun(ls + [steps[0]], steps[1..], end);
      assert ls + [steps[0]] + steps[1..] == ls + steps;
    }
  }

  lemma {:induction false} LeadsOn(s: Tracking, a: seq<Label>, mid: Tracking, b: seq<Label>, end: Tracking)
    requires Leads(s, a, mid) && Leads(mid, b, end)
    ensures Leads(s, a + b, end)
    decreases |a|
  {
    hide Enabled, Apply;
    if a == [] {
      assert a + b == b;
    } else {
      LeadsOn(Apply(s, a[0]), a[1..], mid, b, end);
      assert (a + b)[0] == a[0] && (a + b)[1..] == a[1..] + b;
    }
  }

  lemma {:induction false} FourSteps(s: Tracking, a: Label, b: Label, c: Label, d: Label)
    requires Enabled(s, a) && Enabled(Apply(s, a), b) && Enabled(Apply(Apply(s, a), b), c)
    requires Enabled(Apply(Apply(Apply(s, a), b), c), d)
    ensures Leads(s, [a, b, c, d], Apply(Apply(Apply(Apply(s, a), b), c), d))
  {
    hide Enabled, Apply;
    var s1 := Apply(s, a);
    var s2 := Apply(s1, b);
    var s3 := Apply(s2, c);
    var s4 := Apply(s3, d);
    assert [d][1..] == [] && Leads(s4, [], s4);
    assert Leads(s3, [d], s4);
    assert [c, d][1..] == [d];
    assert Leads(s2, [c, d], s4);
    assert [b, c, d][1..] == [c, d];
    assert Leads(s1, [b, c, d], s4);
    assert [a, b, c, d][1..] == [b, c, d];
  }

  // ---------- An operation let run alone does what the client's method does ----------

  function RecordOf(s: Tracking): (bool, string, string) {
    (s.loaded, s.name, s.id)
  }

  lemma {:induction false} StepThen(s: Tracking, l: Label, steps: seq<Label>, end: Tracking)
    requires Enabled(s, l) && Leads(Apply(s, l), steps, end)
    ensures Leads(s, [l] + steps, end)
  {
    hide Enabled, Apply;
    assert ([l] + steps)[1..] == steps;
  }

  /** As LoadWithID, and SetSystemPrompt if the load succeeds and there is a text. */
  lemma {:induction false} LoadAlone(s: Tracking, t: nat, pulled: bool) returns (steps: seq<Label>, end: Tracking)
    requires t in s.jobs && s.jobs[t].Loading?
    ensures Leads(s, steps, end) && end.jobs == s.jobs[t := Finished] && end.registry == s.registry
    ensures var job := s.jobs[t];
      RecordOf(end) == (if pulled then (true, job.path, job.id) else RecordOf(s))
      && end.prompt == if pulled && job.merged != "" then job.merged else s.prompt
  {
    var job, load := s.jobs[t], Step(t, pulled, "");
    var s1 := Apply(s, load);
    LastStep(s, load);
    steps, end := [load], s1;
    if s1.jobs[t].SettingPrompt? {
      var prompting := Step(t, true, "");
      LastStep(s1, prompting);
      StepThen(s, load, [prompting], Apply(s1, prompting));
      steps, end := [load] + [prompting], Apply(s1, prompting);
    }
    assert end.jobs == s.jobs[t := Finished];
  }

  /** As HotSwap past its look at the registry: the unload, then the load whatever the unload did. */
  lemma {:induction false} ReplaceAlone(s: Tracking, t: nat, deleted: bool, pulled: bool, merged: string)
      returns (steps: seq<Label>, end: Tracking)
    requires t in s.jobs && s.jobs[t].SwapUnload?
    ensures Leads(s, steps, end) && end.jobs == s.jobs[t := Finished] && end.registry == s.registry
    ensures var job := s.jobs[t];
      RecordOf(end) == (if pulled then (true, job.path, job.id) else if deleted then (false, "", "") else RecordOf(s))
      && end.prompt == if pulled && merged != "" then merged else s.prompt
  {
    var job, unload := s.jobs[t], Step(t, deleted, merged);
    var s1 := Apply(s, unload);
    assert s1.jobs == s.jobs[t := Loading(job.path, job.id, merged)];
    var more, end' := LoadAlone(s1, t, pulled);
    StepThen(s, unload, more, end');
    steps, end := [unload] + more, end';
    assert end.jobs == s.jobs[t := Finished];
  }

  /** As HotSwap: the same record and the same prompt, for the same answers. */
  lemma {:induction false} SwapAlone(s: Tracking, t: nat, deleted: bool, pulled: bool, merged: string)
      returns (steps: seq<Label>, end: Tracking)
    requires t in s.jobs && s.jobs[t].SwapStart?
    ensures Leads(s, steps, end) && end.jobs == s.jobs[t := Finished] && end.registry == s.registry
    ensures var id := s.jobs[t].id;
      var hit := id in s.registry && s.registry[id].ggufPath != "";
      var same := s.loaded && s.id == id;
      RecordOf(end) == (if same || !hit then RecordOf(s)
                        else if pulled then (true, s.registry[id].ggufPath, id)
                        else if deleted then (false, "", "")
                        else RecordOf(s))
      && end.prompt == if !same && hit && pulled && merged != "" then merged else s.prompt
  {
    var id, go := s.jobs[t].id, Step(t, true, "");
    var s1 := Apply(s, go);
    LastStep(s, go);
    steps, end := [go], s1;
    if s1.jobs[t].SwapResolve? {
      var s2 := Apply(s1, go);
      LastStep(s1, go);
      StepThen(s, go, [go], s2);
      steps, end := [go] + [go], s2;
      if s2.jobs[t].SwapUnload? {
        var more, end' := ReplaceAlone(s2, t, deleted, pulled, merged);
        StepThen(s1, go, more, end');
        StepThen(s, go, [go] + more, end');
        steps, end := [go] + ([go] + more), end';
      }
    }
    assert end.jobs == s.jobs[t := Finished];
  }

  /** As Unload and as Generate, each one step. */
  lemma {:induction false} OneStepAlone(s: Tracking, t: nat, ok: bool)
    requires t in s.jobs && (s.jobs[t].Unloading? || s.jobs[t].Generating?)
    ensures Enabled(s, Step(t, ok, ""))
    ensures var end := Apply(s, Step(t, ok, ""));
      end.jobs == s.jobs[t := Finished] && end.prompt == s.prompt
      && RecordOf(end) == if !ok then RecordOf(s)
                          else if s.jobs[t].Unloading? then (false, "", "") else (true, "wide-model", s.id)
  {
  }

  /** A swap of id by job t, alone up to its load, which it does; its prompt is still to be set, if any. */
  lemma {:induction false} SwapLoads(s: Tracking, t: nat, id: string, merged: string) returns (end: Tracking)
    requires t in s.jobs && s.jobs[t] == SwapStart(id) && s.id != id && id in s.registry
      && s.registry[id].ggufPath != ""
    ensures Leads(s, [Step(t, true, ""), Step(t, true, ""), Step(t, true, merged), Step(t, true, "")], end)
    ensures end.loaded && end.id == id && end.registry == s.registry && end.prompter == s.prompter
    ensures end.jobs == s.jobs[t := if merged == "" then Finished else SettingPrompt(id, merged)]
  {
    var path := s.registry[id].ggufPath;
    var s1 := Apply(s, Step(t, true, ""));
    assert s1 == Become(s, t, SwapResolve(id));
    var s2 := Apply(s1, Step(t, true, ""));
    assert s2.jobs[t] == SwapUnload(id, path);
    var s3 := Apply(s2, Step(t, true, merged));
    assert s3.jobs[t] == Loading(path, id, merged);
    FourSteps(s, Step(t, true, ""), Step(t, true, ""), Step(t, true, merged), Step(t, true, ""));
    end := Apply(s3, Step(t, true, ""));
    assert end.jobs == s.jobs[t := if merged == "" then Finished else SettingPrompt(id, merged)];
  }

  /** The prompt need not be that of the model loaded: of two swaps that race, one may load last and the
      other set its prompt last. */
  lemma {:induction false} PromptOfAnother(a: Entry, b: Entry) returns (ls: seq<Label>)
    requires a.modelID != b.modelID && a.modelID != "" && b.modelID != "" && a.ggufPath != "" && b.ggufPath != ""
    ensures CanRun(Init(), ls)
    ensures After(Init(), ls).loaded && After(Init(), ls).id == b.modelID
      && After(Init(), ls).prompter == Some(a.modelID)
  {
    hide CanRun, After, Leads;
    var start := [Build(map[a.modelID := a, b.modelID := b]), Swap(a.modelID), Swap(b.modelID), StartGenerate];
    FourSteps(Init(), start[0], start[1], start[2], start[3]);
    var s0 := Apply(Apply(Apply(Apply(Init(), start[0]), start[1]), start[2]), start[3]);
    var s1 := SwapLoads(s0, 0, a.modelID, "for a");
    var s2 := SwapLoads(s1, 1, b.modelID, "");
    var last := Step(0, true, "");
    assert s2.jobs[0] == SettingPrompt(a.modelID, "for a");
    var s3 := Apply(s2, last);
    assert s3.prompter == Some(a.modelID) && s3.loaded && s3.id == b.modelID;
    LastStep(s2, last);
    var swapA := [Step(0, true, ""), Step(0, true, ""), Step(0, true, "for a"), Step(0, true, "")];
    var swapB := [Step(1, true, ""), Step(1, true, ""), Step(1, true, ""), Step(1, true, "")];
    LeadsOn(s1, swapB, s2, [last], s3);
    LeadsOn(s0, swapA, s1, swapB + [last], s3);
    LeadsOn(Init(), start, s0, swapA + (swapB + [last]), s3);
    ls := start + (swapA + (swapB + [last]));
    EmptyRun();
    LeadsRun([], ls, s3);
    assert [] + ls == ls;
  }

  lemma {:induction false} LastStep(s: Tracking, l: Label)
    requires Enabled(s, l)
    ensures Leads(s, [l], Apply(s, l))
  {
    hide Enabled, Apply;
    assert [l][1..] == [];
    assert Leads(Apply(s, l), [], Apply(s, l));
  }

  lemma {:induction false} EmptyRun()
    ensures CanRun(Init(), []) && After(Init(), []) == Init()
  {
  }
}
