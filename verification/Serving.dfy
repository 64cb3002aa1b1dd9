/** Which model a process serves and which version it says it serves: `ensure_active_model`
    over any sequence of champions, clock readings, database failures and artifact faults. */
module Serving {
  import opened Basics
  import Registry

  type Task = Registry.Task

  type Digest = int

  /** A loaded model object; `trained` is the version it really is, which the code cannot see. */
  datatype Model = Model(weights: int, trained: string)

  datatype Meta = Meta(version: string, sha: Option<Digest>)

  /** What the registry query gives: the champion row, no row, or an exception. */
  datatype Lookup = Row(meta: Meta) | NoRow | QueryRaises

  datatype Smoke = SmokePasses | SmokeFails | SmokeRaises

  /** What resolving, hashing, loading and smoke testing the target's artifact would give. */
  datatype Probe =
    | NoArtifact
    | Artifact(digest: Option<Digest>, loaded: Option<Model>, smoke: Smoke)

  datatype Process = Process(models: map<Task, Model>, active: map<Task, string>, cache: map<Task, (int, Meta)>)

  datatype Call =
    | Use(task: Task, now: int, db: Lookup, probe: Probe)
    | Invalidate(which: Option<Task>)

  datatype Status = SYNCED | SYNC_PENDING | SYNC_FAILED | UNAVAILABLE

  datatype Report = Report(status: Status, serving: string, authoritative: string)

  datatype Answer = Answered(model: Option<Model>, report: Report) | Raised | Nothing

  const TTL := 120

  function Get<V>(m: map<Task, V>, task: Task): Option<V> {
    if task in m then Some(m[task]) else None
  }

  predicate Known(task: Task) {
    !task.OtherTask?
  }

  // ---------------------------------------------------------------- metadata

  function Fetched(p: Process, task: Task, db: Lookup): Meta {
    match db
    case Row(meta) => meta
    case _ =>
      var v := Get(p.active, task);
      Meta(if v.Some? && v.value != "" then v.value else "v1.0-champion", None)
  }

  predicate CacheHit(p: Process, task: Task, now: int) {
    task in p.cache && now - p.cache[task].0 < TTL
  }

  function MetaFor(p: Process, task: Task, now: int, db: Lookup): Meta {
    if CacheHit(p, task, now) then p.cache[task].1 else Fetched(p, task, db)
  }

  function Remembered(p: Process, task: Task, now: int, db: Lookup): Process {
    if CacheHit(p, task, now) then p else p.(cache := p.cache[task := (now, Fetched(p, task, db))])
  }

  // ---------------------------------------------------------------- one call

  function Shown(raw: Option<string>): string {
    if raw.Some? && raw.value != "" then raw.value else "uninitialized"
  }

  /** Whether the artifact may replace the model in memory, and if not, how that is reported. */
  datatype Verdict = Accepted(model: Model) | Missing | Unusable | Unknown

  function Judge(meta: Meta, probe: Probe): Verdict {
    match probe
    case NoArtifact => Missing
    case Artifact(digest, loaded, smoke) =>
      if meta.sha.Some? && digest != meta.sha then Unusable
      else if loaded.None? then Unusable
      else
        match smoke
        case SmokePasses => Accepted(loaded.value)
        case SmokeFails => Unusable
        case SmokeRaises => Unknown
  }

  predicate FirstUse(p: Process, task: Task) {
    Known(task) && task in p.models && task !in p.active
  }

  predicate InSync(p: Process, task: Task, target: string) {
    Known(task) && task in p.models && Get(p.active, task) == Some(target)
  }

  function Step(p: Process, c: Call): (Process, Answer) {
    match c
    case Invalidate(task) =>
      (p.(cache := if task.Some? then p.cache - {task.value} else map[]), Nothing)
    case Use(task, now, db, probe) =>
      var meta := MetaFor(p, task, now, db);
      var q := Remembered(p, task, now, db);
      var target := meta.version;
      var model, version := Get(p.models, task), Get(p.active, task);
      if !Known(task) then (q, Answered(None, Report(UNAVAILABLE, Shown(None), target)))
      else if InSync(p, task, target) then (q, Answered(model, Report(SYNCED, Shown(version), target)))
      else if FirstUse(p, task) then
        (q.(active := p.active[task := target]), Answered(model, Report(SYNCED, Shown(Some(target)), target)))
      else
        match Judge(meta, probe)
        case Missing => (q, Answered(model, Report(SYNC_PENDING, Shown(version), target)))
        case Unusable => (q, Answered(model, Report(SYNC_FAILED, Shown(version), target)))
        case Unknown => (q, Raised)
        case Accepted(m) =>
          (q.(models := p.models[task := m], active := p.active[task := target]),
           Answered(Some(m), Report(SYNCED, Shown(Some(target)), target)))
  }

  /** At start-up any models may have been loaded from disk; none has a version yet. */
  predicate Booted(p: Process) {
    p.active == map[] && p.cache == map[] && forall t :: t in p.models ==> Known(t)
  }

  function Run(start: Process, calls: seq<Call>): Process {
    if calls == [] then start else Step(Run(start, calls[..|calls| - 1]), calls[|calls| - 1]).0
  }

  // ---------------------------------------------------------------- what the registry says, and what comes of it

  /** No metadata younger than 120 seconds at hand: the call asks the registry. */
  predicate Asks(p: Process, task: Task, now: int) {
    task !in p.cache || now - p.cache[task].0 >= 120
  }

  /** The version and checksum that a registry answer stands for, given what the process serves. */
  ghost predicate Stands(db: Lookup, served: Option<string>, version: string, sha: Option<Digest>) {
    match db
    case Row(row) => version == row.version && sha == row.sha
    case _ =>
      && sha == None
      && (served.Some? && served.value != "" ==> version == served.value)
      && (served.None? || served.value == "" ==> version == "v1.0-champion")
  }

  /** From the registry's answer to the call's: what is reported and what is in memory afterwards.
      `version` is the authoritative version and `sha` the checksum recorded for it. */
  ghost predicate Carried(p: Process, q: Process, a: Answer, task: Task, version: string, sha: Option<Digest>,
        probe: Probe) {
    var model, active := Get(p.models, task), Get(p.active, task);
    var shown := if active.Some? && active.value != "" then active.value else "uninitialized";
    var kept := q.models == p.models && q.active == p.active;
    var target := if version != "" then version else "uninitialized";
    if task.OtherTask? then
      kept && a == Answered(None, Report(UNAVAILABLE, "uninitialized", version))
    else if model.Some? && active == Some(version) then
      kept && a == Answered(model, Report(SYNCED, shown, version))
    else if model.Some? && active.None? then
      && q.models == p.models && q.active == p.active[task := version]
      && a == Answered(model, Report(SYNCED, target, version))
    else if probe.NoArtifact? then
      kept && a == Answered(model, Report(SYNC_PENDING, shown, version))
    else if (sha.Some? && probe.digest != sha) || probe.loaded.None? || probe.smoke == SmokeFails then
      kept && a == Answered(model, Report(SYNC_FAILED, shown, version))
    else if probe.smoke == SmokeRaises then
      kept && a == Raised
    else
      && q.models == p.models[task := probe.loaded.value] && q.active == p.active[task := version]
      && a == Answered(probe.loaded, Report(SYNCED, target, version))
  }

  /** Which metadata a call goes by, and what it remembers. */
  lemma MetaDecides(p: Process, task: Task, now: int, db: Lookup)
    ensures var (meta, q) := (MetaFor(p, task, now, db), Remembered(p, task, now, db));
            && q.models == p.models && q.active == p.active
            && (if Asks(p, task, now)
                then Stands(db, Get(p.active, task), meta.version, meta.sha) && q.cache == p.cache[task := (now, meta)]
                else meta == p.cache[task].1 && q.cache == p.cache)
  {
  }

  /** A call that asks goes by what the registry answers it, checksum included, and remembers that
      with the time; any other goes by what is remembered. */
  lemma RegistryDecides(p: Process, task: Task, now: int, db: Lookup, probe: Probe)
    returns (version: string, sha: Option<Digest>)
    ensures var (q, a) := Step(p, Use(task, now, db, probe));
            && Carried(p, q, a, task, version, sha, probe)
            && (if Asks(p, task, now)
                then && Stands(db, Get(p.active, task), version, sha)
                     && q.cache == p.cache[task := (now, Meta(version, sha))]
                else Meta(version, sha) == p.cache[task].1 && q.cache == p.cache)
  {
    hide MetaFor, Remembered, Stands, Asks;
    MetaDecides(p, task, now, db);
    var meta := MetaFor(p, task, now, db);
    version, sha := meta.version, meta.sha;
  }

  // ---------------------------------------------------------------- one call, exactly

  predicate Swaps(p: Process, c: Call) {
    c.Use? && Known(c.task) &&
    var meta := MetaFor(p, c.task, c.now, c.db);
    !InSync(p, c.task, meta.version) && !FirstUse(p, c.task) && Judge(meta, c.probe).Accepted?
  }

  /** The model and its recorded version change only for the task asked about, and only in two
      ways: both together once the artifact passed every gate, or, on first use of a model
      loaded at start-up, the version alone. Every failure leaves both as they were. */
  lemma PairMovesTogether(p: Process, c: Call, u: Task)
    ensures var q := Step(p, c).0;
            if c.Use? && c.task == u && Swaps(p, c) then
              && var meta := MetaFor(p, u, c.now, c.db);
              && Get(q.models, u) == c.probe.loaded && Get(q.active, u) == Some(meta.version)
              && (meta.sha.Some? ==> c.probe.digest == meta.sha)
              && c.probe.smoke == SmokePasses
            else if c.Use? && c.task == u && FirstUse(p, u) then
              && Get(q.models, u) == Get(p.models, u)
              && Get(q.active, u) == Some(MetaFor(p, u, c.now, c.db).version)
            else
              Get(q.models, u) == Get(p.models, u) && Get(q.active, u) == Get(p.active, u)
    ensures Step(p, c).1.Raised? || (Step(p, c).1.Answered? && Step(p, c).1.report.status != SYNCED) ==>
              Step(p, c).0.models == p.models && Step(p, c).0.active == p.active
  {
    hide Shown, Fetched, MetaFor, CacheHit;
  }

  /** Every version recorded has a model loaded. */
  ghost predicate BoundLoaded(p: Process) {
    forall t :: t in p.active ==> Known(t) && t in p.models
  }

  lemma {:induction false} RunKeepsBound(start: Process, calls: seq<Call>)
    requires Booted(start)
    ensures BoundLoaded(Run(start, calls))
  {
    if calls != [] {
      var prefix, c := calls[..|calls| - 1], calls[|calls| - 1];
      RunKeepsBound(start, prefix);
      forall t | t in Run(start, calls).active
        ensures Known(t) && t in Run(start, calls).models
      {
        PairMovesTogether(Run(start, prefix), c, t);
        hide Judge, MetaFor, Fetched, Remembered, CacheHit, InSync;
      }
    }
  }

  /** In every reachable state an answer names the model and the version then recorded for it,
      and says SYNCED exactly when that recorded version is the authoritative one. UNAVAILABLE
      means the task is unknown - not, as documented, that no model is loaded. */
  lemma AnswerMatchesMemory(start: Process, calls: seq<Call>, c: Call)
    requires Booted(start) && c.Use?
    ensures var p := Run(start, calls);
            var (q, a) := Step(p, c);
            a.Answered? ==>
              && a.model == (if Known(c.task) then Get(q.models, c.task) else None)
              && a.report.serving == Shown(Get(q.active, c.task))
              && a.report.authoritative == MetaFor(p, c.task, c.now, c.db).version
              && (a.report.status == SYNCED <==> Get(q.active, c.task) == Some(a.report.authoritative))
              && (a.report.status == UNAVAILABLE <==> !Known(c.task))
  {
    RunKeepsBound(start, calls);
  }

  predicate Falsy(raw: Option<string>) {
    raw.None? || raw.value == ""
  }

  /** After the call the authoritative version is the recorded one: it was before, or the call
      names a start-up model, or it swaps the model. */
  predicate WillServe(p: Process, c: Call)
    requires c.Use?
  {
    InSync(p, c.task, MetaFor(p, c.task, c.now, c.db).version) || FirstUse(p, c.task) || Swaps(p, c)
  }

  /** The strings in the answer agree with its status exactly outside two corners, both visible
      before the call: an empty target version that is going to be served, and a target version
      spelled "uninitialized" while nothing is served nor going to be. */
  lemma ReportedStringsAgreeIff(start: Process, calls: seq<Call>, c: Call)
    requires Booted(start) && c.Use? && Step(Run(start, calls), c).1.Answered?
    ensures var p := Run(start, calls);
            var report := Step(p, c).1.report;
            var target := MetaFor(p, c.task, c.now, c.db).version;
            (report.status == SYNCED <==> report.serving == report.authoritative) <==>
            !(WillServe(p, c) && target == "") &&
            !(!WillServe(p, c) && target == "uninitialized" && Falsy(Get(p.active, c.task)))
  {
    RunKeepsBound(start, calls);
  }

  /** Both corners are reached by the first call of a process: one that serves a start-up model
      as version "", and one that has no model for a champion called "uninitialized". */
  lemma ReportedStringsDisagree()
    ensures var model := Process(map[Registry.Shortfall := Model(1, "v1")], map[], map[]);
            var a := Step(model, Use(Registry.Shortfall, 0, Row(Meta("", None)), NoArtifact)).1;
            Booted(model) && a.report.status == SYNCED && a.report.serving != a.report.authoritative
    ensures var bare := Process(map[], map[], map[]);
            var a := Step(bare, Use(Registry.Shortfall, 0, Row(Meta("uninitialized", None)), NoArtifact)).1;
            Booted(bare) && a.report.status != SYNCED && a.report.serving == a.report.authoritative
  {
  }

  // ---------------------------------------------------------------- is the version the true one?

  /** The stated invariant: the version recorded, and so reported, is that of the model in memory. */
  predicate Truthful(p: Process, u: Task) {
    u in p.active ==> u in p.models && p.models[u].trained == p.active[u]
  }

  /** The first use of a start-up model that is not the version it is then called. */
  predicate Misnames(p: Process, c: Call, u: Task) {
    c.Use? && c.task == u && FirstUse(p, u) && p.models[u].trained != MetaFor(p, u, c.now, c.db).version
  }

  /** A swap to an artifact that passes every gate but is not the version it was found for. */
  predicate WrongSwap(p: Process, c: Call, u: Task) {
    c.Use? && c.task == u && Swaps(p, c) && c.probe.loaded.value.trained != MetaFor(p, u, c.now, c.db).version
  }

  /** A call keeps the invariant exactly when it neither misnames a start-up model nor swaps in
      a wrong one. */
  lemma TruthIsKeptIff(p: Process, c: Call, u: Task)
    requires Truthful(p, u) && BoundLoaded(p)
    ensures Truthful(Step(p, c).0, u) <==> !Misnames(p, c, u) && !WrongSwap(p, c, u)
  {
    PairMovesTogether(p, c, u);
    hide Step, MetaFor;
  }

  /** Whatever was wrong before, a swap decides anew. */
  lemma SwapDecides(p: Process, c: Call)
    requires Swaps(p, c)
    ensures Truthful(Step(p, c).0, c.task) <==> !WrongSwap(p, c, c.task)
  {
    PairMovesTogether(p, c, c.task);
    hide Step, MetaFor;
  }

  /** The call puts a model and a version together. */
  predicate Installs(p: Process, c: Call, u: Task) {
    c.Use? && c.task == u && (Swaps(p, c) || FirstUse(p, u))
  }

  function LastInstall(start: Process, calls: seq<Call>, u: Task): (i: Option<nat>)
    ensures i.Some? ==> i.value < |calls|
  {
    if calls == [] then None
    else
      var n := |calls| - 1;
      if Installs(Run(start, calls[..n]), calls[n], u) then Some(n) else LastInstall(start, calls[..n], u)
  }

  /** Over every run, whatever the artifacts are: the recorded version is true exactly when the
      call that put the present pair in place did so truly - no call since matters, nor any before. */
  lemma {:induction false} RunIsTruthfulIff(start: Process, calls: seq<Call>, u: Task)
    requires Booted(start)
    ensures var i := LastInstall(start, calls, u);
            && (u in Run(start, calls).active <==> i.Some?)
            && (i.Some? ==>
                 var p, c := Run(start, calls[..i.value]), calls[i.value];
                 Truthful(Run(start, calls), u) <==> !Misnames(p, c, u) && !WrongSwap(p, c, u))
  {
    if calls != [] {
      var n := |calls| - 1;
      RunIsTruthfulIff(start, calls[..n], u);
      RunKeepsBound(start, calls[..n]);
      PairMovesTogether(Run(start, calls[..n]), calls[n], u);
      hide Step, MetaFor, Judge, InSync, Booted;
      var i := LastInstall(start, calls[..n], u);
      if i.Some? {
        assert calls[..n][..i.value] == calls[..i.value];
      }
      assert Get(Run(start, calls).active, u).Some? <==> u in Run(start, calls).active;
    }
  }

  /** A recorded checksum helps: if a digest determines the artifact, and the digest recorded for
      the version is that of an artifact trained as it, the swap is to the right one. */
  lemma ChecksumMakesSwapsTrue(p: Process, c: Call, trainedAs: Digest -> string)
    requires Swaps(p, c)
    requires var meta := MetaFor(p, c.task, c.now, c.db);
             meta.sha.Some? && trainedAs(meta.sha.value) == meta.version
    requires c.probe.digest.Some? ==> c.probe.loaded.value.trained == trainedAs(c.probe.digest.value)
    ensures !WrongSwap(p, c, c.task) && Truthful(Step(p, c).0, c.task)
  {
    SwapDecides(p, c);
    hide Step, MetaFor;
  }

  /** A process that loaded version "v1" at start-up and first asks when "v2" is champion. */
  lemma StartUpModelIsMisnamed()
    ensures var start := Process(map[Registry.Shortfall := Model(1, "v1")], map[], map[]);
            var calls := [Use(Registry.Shortfall, 0, Row(Meta("v2", None)), NoArtifact)];
            Booted(start) && Misnames(start, calls[0], Registry.Shortfall)
            && !Truthful(Run(start, calls), Registry.Shortfall)
  {
    RunOne(Process(map[Registry.Shortfall := Model(1, "v1")], map[], map[]),
           Use(Registry.Shortfall, 0, Row(Meta("v2", None)), NoArtifact));
  }

  lemma RunOne(start: Process, c: Call)
    ensures Run(start, [c]) == Step(start, c).0
  {
    assert [c][..0] == [];
  }

  /** Champion "v2" has no checksum, and the file found for it still is the one of "v1": after the
      metadata expired, the process reloads "v1" and calls it "v2". */
  lemma StaleArtifactIsSwappedIn()
    ensures var start := Process(map[Registry.Shortfall := Model(1, "v1")], map[], map[]);
            var first := Use(Registry.Shortfall, 0, Row(Meta("v1", None)), NoArtifact);
            var second := Use(Registry.Shortfall, 200, Row(Meta("v2", None)),
              Artifact(None, Some(Model(1, "v1")), SmokePasses));
            && Booted(start)
            && Truthful(Run(start, [first]), Registry.Shortfall)
            && WrongSwap(Run(start, [first]), second, Registry.Shortfall)
            && !Truthful(Run(start, [first, second]), Registry.Shortfall)
  {
    var start := Process(map[Registry.Shortfall := Model(1, "v1")], map[], map[]);
    var first := Use(Registry.Shortfall, 0, Row(Meta("v1", None)), NoArtifact);
    var second := Use(Registry.Shortfall, 200, Row(Meta("v2", None)),
      Artifact(None, Some(Model(1, "v1")), SmokePasses));
    RunOne(start, first);
    assert [first, second][..1] == [first];
    assert Run(start, [first, second]) == Step(Run(start, [first]), second).0;
  }

  // ---------------------------------------------------------------- where a pair comes from

  /** Call `i` put the pair (m, v) in place: through every gate, or as a start-up model's first use. */
  ghost predicate InstalledBy(start: Process, calls: seq<Call>, i: nat, u: Task, m: Model, v: string) {
    i < |calls| &&
    var p, c := Run(start, calls[..i]), calls[i];
    c.Use? && c.task == u &&
    var meta := MetaFor(p, u, c.now, c.db);
    meta.version == v &&
    ((Swaps(p, c) && c.probe.loaded == Some(m) && (meta.sha.Some? ==> c.probe.digest == meta.sha) &&
      c.probe.smoke == SmokePasses)
     || (FirstUse(p, u) && Get(start.models, u) == Some(m)))
  }

  lemma InstalledEarlier(start: Process, calls: seq<Call>, i: nat, u: Task, m: Model, v: string)
    requires calls != [] && InstalledBy(start, calls[..|calls| - 1], i, u, m, v)
    ensures InstalledBy(start, calls, i, u, m, v)
  {
    assert calls[..|calls| - 1][..i] == calls[..i];
  }

  ghost predicate Installed(start: Process, calls: seq<Call>, u: Task, m: Model, v: string) {
    exists i: nat :: InstalledBy(start, calls, i, u, m, v)
  }

  /** In every run a recorded version and the model beside it were put in place by one call,
      whose authoritative version it was; before that the start-up model is untouched. */
  lemma {:induction false} PairHasAnOrigin(start: Process, calls: seq<Call>, u: Task)
    requires Booted(start)
    ensures var p := Run(start, calls);
            if u in p.active then u in p.models && Installed(start, calls, u, p.models[u], p.active[u])
            else Get(p.models, u) == Get(start.models, u)
  {
    if calls != [] {
      var n := |calls| - 1;
      var prefix, c := calls[..n], calls[n];
      var p, q := Run(start, prefix), Run(start, calls);
      PairHasAnOrigin(start, prefix, u);
      RunKeepsBound(start, calls);
      PairMovesTogether(p, c, u);
      hide Step, Judge, MetaFor, InSync, Booted, BoundLoaded;
      assert Get(q.active, u) == None <==> u !in q.active;
      if c.Use? && c.task == u && (Swaps(p, c) || FirstUse(p, u)) {
        assert InstalledBy(start, calls, n, u, q.models[u], q.active[u]);
      } else if u in p.active {
        var i: nat :| InstalledBy(start, prefix, i, u, p.models[u], p.active[u]);
        InstalledEarlier(start, calls, i, u, p.models[u], p.active[u]);
      }
    }
  }

  // ---------------------------------------------------------------- age of the metadata

  predicate Forgets(c: Call, u: Task) {
    c.Invalidate? && (c.which.None? || c.which == Some(u))
  }

  /** The call whose question to the registry is the last about this task that is still remembered:
      a later call asks again after 120 seconds, or when an invalidation came between. */
  function LastAsk(calls: seq<Call>, u: Task): (i: Option<nat>)
    ensures i.Some? ==> i.value < |calls| && calls[i.value].Use? && calls[i.value].task == u
  {
    if calls == [] then None
    else
      var n := |calls| - 1;
      var earlier, c := LastAsk(calls[..n], u), calls[n];
      if Forgets(c, u) then None
      else if c.Use? && c.task == u && (earlier.None? || c.now - calls[earlier.value].now >= 120) then Some(n)
      else earlier
  }

  /** Metadata as call `i` got it from the registry. */
  ghost predicate AskedBy(start: Process, calls: seq<Call>, i: nat, meta: Meta) {
    && i < |calls| && calls[i].Use?
    && Stands(calls[i].db, Get(Run(start, calls[..i]).active, calls[i].task), meta.version, meta.sha)
  }

  /** In every run the metadata remembered for a task is what the last call that asked was told. */
  lemma {:induction false} CacheIsLastAsk(start: Process, calls: seq<Call>, u: Task)
    requires Booted(start)
    ensures var p, i := Run(start, calls), LastAsk(calls, u);
            && (u in p.cache <==> i.Some?)
            && (i.Some? ==> p.cache[u].0 == calls[i.value].now && AskedBy(start, calls, i.value, p.cache[u].1))
  {
    if calls != [] {
      var n := |calls| - 1;
      var c, p, earlier := calls[n], Run(start, calls[..n]), LastAsk(calls[..n], u);
      CacheIsLastAsk(start, calls[..n], u);
      if earlier.Some? {
        assert calls[..n][..earlier.value] == calls[..earlier.value];
      }
      if c.Use? {
        var version, sha := RegistryDecides(p, c.task, c.now, c.db, c.probe);
      } else {
        ForgettingIsExact(p, c, u);
      }
      hide Step, Stands, Carried, Booted;
    }
  }

  lemma ForgettingIsExact(p: Process, c: Call, u: Task)
    requires c.Invalidate?
    ensures u in Step(p, c).0.cache <==> u in p.cache && !Forgets(c, u)
    ensures u in Step(p, c).0.cache ==> Step(p, c).0.cache[u] == p.cache[u]
    ensures Step(p, c).0.models == p.models && Step(p, c).0.active == p.active
  {
  }

  lemma {:induction false} AskStands(calls: seq<Call>, u: Task)
    ensures var i := LastAsk(calls, u);
            i.Some? ==> forall j :: i.value < j < |calls| ==> !Forgets(calls[j], u)
  {
    if calls != [] {
      AskStands(calls[..|calls| - 1], u);
    }
  }

  /** After any run, a call goes by what the last call that asked about the task - itself, if it asks -
      was told by the registry, checksum included; that was less than 120 seconds earlier on the
      clock, and nobody invalidated it since. What it answers and leaves in memory follows. */
  lemma TargetIsRecent(start: Process, calls: seq<Call>, c: Call)
    returns (i: nat, version: string, sha: Option<Digest>)
    requires Booted(start) && c.Use?
    ensures var all := calls + [c];
            && LastAsk(all, c.task) == Some(i) && AskedBy(start, all, i, Meta(version, sha))
            && (i == |calls| || c.now - all[i].now < 120)
            && forall j :: i < j < |all| ==> !Forgets(all[j], c.task)
    ensures var (q, a) := Step(Run(start, calls), c);
            Carried(Run(start, calls), q, a, c.task, version, sha, c.probe)
  {
    var all, p := calls + [c], Run(start, calls);
    assert all[..|calls|] == calls;
    CacheIsLastAsk(start, calls, c.task);
    AskStands(all, c.task);
    version, sha := RegistryDecides(p, c.task, c.now, c.db, c.probe);
    i := LastAsk(all, c.task).value;
    assert all[..i] == calls[..i];
    hide Step, Stands, Carried, Booted;
  }

  // ---------------------------------------------------------------- the code

  class ModelLoader {
    var models: map<Task, Model>
    var active: map<Task, string>
    var cache: map<Task, (int, Meta)>

    ghost function Contents(): Process
      reads this
    {
      Process(models, active, cache)
    }

    constructor (fromDisk: map<Task, Model>)
      requires forall t :: t in fromDisk ==> Known(t)
      ensures Booted(Contents()) && models == fromDisk
    {
      models, active, cache := fromDisk, map[], map[];
    }

    method InvalidateModelMetadata(task: Option<Task>)
      modifies this`cache
      ensures Contents() == Step(old(Contents()), Invalidate(task)).0
    {
      if task.Some? {
        cache := cache - {task.value};
      } else {
        cache := map[];
      }
    }

    method GetActiveModelMetadata(task: Task, now: int, db: Lookup) returns (meta: Meta)
      modifies this`cache
      ensures meta == MetaFor(old(Contents()), task, now, db)
      ensures Contents() == Remembered(old(Contents()), task, now, db)
    {
      if task in cache {
        var (at, cached) := cache[task];
        if now - at < TTL {
          return cached;
        }
      }
      match db {
        case Row(row) =>
          meta := row;
        case _ =>
          var v := "v1.0-champion";
          if task in active && active[task] != "" {
            v := active[task];
          }
          meta := Meta(v, None);
      }
      cache := cache[task := (now, meta)];
    }

    method EnsureActiveModel(task: Task, now: int, db: Lookup, probe: Probe) returns (a: Answer)
      modifies this
      ensures (Contents(), a) == Step(old(Contents()), Use(task, now, db, probe))
    {
      hide MetaFor, Remembered, Fetched, CacheHit, Shown;
      var metadata := GetActiveModelMetadata(task, now, db);
      var target := metadata.version;
      if !Known(task) {
        return Answered(None, Report(UNAVAILABLE, Shown(None), target));
      }
      var model, version := Get(models, task), Get(active, task);
      if model.Some? && version == Some(target) {
        return Answered(model, Report(SYNCED, Shown(version), target));
      }
      if model.Some? && version.None? {
        active := active[task := target];
        return Answered(model, Report(SYNCED, Shown(Some(target)), target));
      }
      if probe.NoArtifact? {
        return Answered(model, Report(SYNC_PENDING, Shown(version), target));
      }
      if metadata.sha.Some? {
        if probe.digest.None? {
          return Answered(model, Report(SYNC_FAILED, Shown(version), target));
        }
        if probe.digest.value != metadata.sha.value {
          return Answered(model, Report(SYNC_FAILED, Shown(version), target));
        }
      }
      if probe.loaded.None? {
        return Answered(model, Report(SYNC_FAILED, Shown(version), target));
      }
      var replacement := probe.loaded.value;
      if probe.smoke == SmokeRaises {
        return Raised;
      }
      if probe.smoke == SmokeFails {
        return Answered(model, Report(SYNC_FAILED, Shown(version), target));
      }
      models := models[task := replacement];
      active := active[task := target];
      return Answered(Some(replacement), Report(SYNCED, Shown(Some(target)), target));
    }
  }
}
