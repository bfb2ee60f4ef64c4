// Backup and restore objects and the jobs that carry them out, as values, and every event that can change them
// (pkg/backuprestore).
//
// The store keeps every version of an object and of a job: a reader may see any of them, and a write of an object's
// status succeeds only against the newest.
module BackupObjects {
  import opened Wrappers

  datatype Operation = Backup | Restore {
    function Text(): string {
      if Backup? then "backup" else "restore"
    }
  }

  datatype Key = Key(namespace: string, operation: Operation, name: string) {
    // The name of the job that carries the operation out.
    function JobName(): string {
      name + "-" + operation.Text()
    }

    function JobId(): (string, string) {
      (namespace, JobName())
    }

    // The labels of the temporary secrets made for the object.
    function Labels(): map<string, string> {
      map["app" := "aerospike", operation.Text() := name]
    }

    // The label selector that finds them again.
    predicate Selects(labels: map<string, string>) {
      && "app" in labels && labels["app"] == "aerospike"
      && operation.Text() in labels && labels[operation.Text()] == name
    }
  }

  datatype Storage = Storage(bucket: string, secret: string, secretNamespace: Option<string>, secretKey: Option<string>)

  datatype Target = Target(cluster: string, namespace: string)

  datatype Settings = Settings(storage: Option<Storage>, target: Target, ttl: Option<string>)

  datatype Condition = Started | Finished | Failed {
    predicate Terminal() {
      Finished? || Failed?
    }
  }

  datatype Object = Object(spec: Settings, status: Settings, conditions: seq<Condition>)

  // The status of an object that has just been created.
  const BLANK := Settings(None, Target("", ""), None)

  datatype JobConditionKind = JobComplete | JobFailed | OtherKind

  datatype JobCondition = JobCondition(kind: JobConditionKind, holds: bool)

  // The verdict of a job: the first of its conditions that says it is complete or failed, and holds.
  function JobVerdict(conditions: seq<JobCondition>): (v: Option<Condition>)
    ensures v.Some? ==> v.value.Terminal()
  {
    if conditions == [] then None
    else if conditions[0].kind == JobComplete && conditions[0].holds then Some(Finished)
    else if conditions[0].kind == JobFailed && conditions[0].holds then Some(Failed)
    else JobVerdict(conditions[1..])
  }

  // A condition of a job that says how it ended.
  predicate Decisive(c: JobCondition) {
    c.holds && (c.kind == JobComplete || c.kind == JobFailed)
  }

  // Of the conditions that say how the job ended, the first is the k-th one, and of the given kind.
  predicate DecidedAt(conditions: seq<JobCondition>, k: nat, kind: JobConditionKind) {
    k < |conditions| && conditions[k] == JobCondition(kind, true) && forall j | 0 <= j < k :: !Decisive(conditions[j])
  }

  ghost predicate Decided(conditions: seq<JobCondition>, kind: JobConditionKind) {
    exists k: nat :: DecidedAt(conditions, k, kind)
  }

  // A job has finished exactly if the first of its conditions that decide says that it is complete, and has failed
  // exactly if that one says that it failed.
  lemma {:induction false} JobVerdictExactly(conditions: seq<JobCondition>)
    ensures JobVerdict(conditions) == Some(Finished) <==> Decided(conditions, JobComplete)
    ensures JobVerdict(conditions) == Some(Failed) <==> Decided(conditions, JobFailed)
    ensures JobVerdict(conditions) == None <==> forall k | 0 <= k < |conditions| :: !Decisive(conditions[k])
  {
    if conditions != [] {
      var c, rest := conditions[0], conditions[1..];
      JobVerdictExactly(rest);
      if Decisive(c) {
        assert DecidedAt(conditions, 0, c.kind);
      } else {
        DecidedLater(conditions, JobComplete);
        DecidedLater(conditions, JobFailed);
        assert forall k | 0 <= k < |rest| :: conditions[k + 1] == rest[k];
      }
    }
  }

  lemma DecidedLater(conditions: seq<JobCondition>, kind: JobConditionKind)
    requires conditions != [] && !Decisive(conditions[0]) && (kind == JobComplete || kind == JobFailed)
    ensures Decided(conditions, kind) <==> Decided(conditions[1..], kind)
  {
    if k: nat :| DecidedAt(conditions, k, kind) {
      assert forall j | 0 <= j < k - 1 :: conditions[1..][j] == conditions[j + 1];
      assert DecidedAt(conditions[1..], k - 1, kind);
    } else if k: nat :| DecidedAt(conditions[1..], k, kind) {
      assert forall j | 0 < j <= k :: conditions[j] == conditions[1..][j - 1];
      assert DecidedAt(conditions, k + 1, kind);
    }
  }

  // The verdict that the cluster's reconciler reads off an object: its first terminal condition.
  function Verdict(log: seq<Condition>): Option<Condition> {
    if log == [] then None
    else if log[0].Terminal() then Some(log[0])
    else Verdict(log[1..])
  }

  predicate IsOver(log: seq<Condition>) {
    exists k | 0 <= k < |log| :: log[k].Terminal()
  }

  // ---------------------------------------------------------------- records and events

  // Every version of every object and job, newest last; a version of a job is absent where the job was deleted.
  // owed tells for an object on which of its versions a job was launched last, which the operator cannot read.
  datatype Records = Records(
    objects: map<Key, seq<Object>>,
    jobs: map<(string, string), seq<Option<seq<JobCondition>>>>,
    owed: map<Key, nat>
  )

  datatype Event =
    | Admitted(key: Key, spec: Settings)
    | Edited(key: Key, spec: Settings)
    | JobUpdated(id: (string, string), conditions: seq<JobCondition>)
    | JobDeleted(id: (string, string))
    | Launched(key: Key, read: nat)
    | StatusWritten(key: Key, read: nat, written: Object)

  predicate JobExists(r: Records, id: (string, string)) {
    id in r.jobs && |r.jobs[id]| > 0 && r.jobs[id][|r.jobs[id]| - 1].Some?
  }

  // Version number read of the object exists; it need not be the newest.
  predicate HasVersion(r: Records, key: Key, read: nat) {
    key in r.objects && read < |r.objects[key]|
  }

  predicate IsNewest(r: Records, key: Key, read: nat) {
    key in r.objects && read + 1 == |r.objects[key]|
  }

  function Current(r: Records, key: Key): Object
    requires key in r.objects && |r.objects[key]| > 0
  {
    r.objects[key][|r.objects[key]| - 1]
  }

  // The conditions that one pass of the handler may add to the copy it has read: none; that it has launched the job;
  // or the verdict of some version of the job.
  predicate MayAdd(r: Records, key: Key, read: nat, added: seq<Condition>) {
    || added == []
    || (added == [Started] && key in r.owed && r.owed[key] == read)
    || (&& |added| == 1 && key.JobId() in r.jobs
        && exists v | v in r.jobs[key.JobId()] :: v.Some? && JobVerdict(v.value) == Some(added[0]))
  }

  predicate Enabled(r: Records, e: Event) {
    match e
    case Admitted(key, spec) => key !in r.objects
    case Edited(key, spec) => HasVersion(r, key, 0)
    case JobUpdated(id, conditions) => JobExists(r, id)
    case JobDeleted(id) => JobExists(r, id)
    case Launched(key, read) =>
      HasVersion(r, key, read) && !IsOver(r.objects[key][read].conditions) && !JobExists(r, key.JobId())
    case StatusWritten(key, read, written) =>
      && IsNewest(r, key, read) && written.spec == Current(r, key).spec
      && Current(r, key).conditions <= written.conditions
      && MayAdd(r, key, read, written.conditions[|Current(r, key).conditions|..])
      && (IsOver(Current(r, key).conditions) ==> written.conditions == Current(r, key).conditions)
  }

  function Append<K, V>(m: map<K, seq<V>>, k: K, v: V): map<K, seq<V>> {
    m[k := (if k in m then m[k] else []) + [v]]
  }

  function Apply(r: Records, e: Event): Records
    requires Enabled(r, e)
  {
    match e
    case Admitted(key, spec) => r.(objects := r.objects[key := [Object(spec, BLANK, [])]])
    case Edited(key, spec) => r.(objects := Append(r.objects, key, Current(r, key).(spec := spec)))
    case JobUpdated(id, conditions) => r.(jobs := Append(r.jobs, id, Some(conditions)))
    case JobDeleted(id) => r.(jobs := Append(r.jobs, id, None))
    case Launched(key, read) =>
      r.(jobs := Append(r.jobs, key.JobId(), Some([])), owed := r.owed[key := read])
    case StatusWritten(key, read, written) => r.(objects := Append(r.objects, key, written))
  }

  ghost predicate IsRun(records: seq<Records>, events: seq<Event>) {
    && |records| == |events| + 1
    && records[0] == Records(map[], map[], map[])
    && (forall k {:trigger events[k]} | 0 <= k < |events| ::
          Enabled(records[k], events[k]) && records[k + 1] == Apply(records[k], events[k]))
  }

  // ---------------------------------------------------------------- names and labels

  lemma JobNameTellsOperation(key: Key)
    ensures key.JobName()[|key.JobName()| - 1] == if key.operation.Backup? then 'p' else 'e'
    ensures key.name == key.JobName()[..|key.JobName()| - |key.operation.Text()| - 1]
  {
  }

  // Different objects have different jobs, even a backup and a restore of the same name.
  lemma JobIdInjective(a: Key, b: Key)
    requires a.JobId() == b.JobId()
    ensures a == b
  {
    JobNameTellsOperation(a);
    JobNameTellsOperation(b);
  }

  // A selector finds the temporary secrets of its own object and of no other object in the namespace.
  lemma SelectsOwnSecrets(a: Key, b: Key)
    requires a.namespace == b.namespace
    ensures a.Selects(b.Labels()) <==> a == b
  {
    assert "backup" != "restore" && "backup" != "app" && "restore" != "app" by {
      assert |"backup"| == 6 && |"restore"| == 7 && |"app"| == 3;
    }
  }

  // ---------------------------------------------------------------- condition logs

  // The versions of every object only ever append conditions.
  ghost predicate LogsGrow(r: Records) {
    forall key, a, b | key in r.objects && 0 <= a <= b < |r.objects[key]| ::
      r.objects[key][a].conditions <= r.objects[key][b].conditions
  }

  predicate NonEmpty(r: Records) {
    forall key | key in r.objects :: |r.objects[key]| > 0
  }

  lemma StepKeepsGrowth(r: Records, e: Event)
    requires LogsGrow(r) && NonEmpty(r) && Enabled(r, e)
    ensures LogsGrow(Apply(r, e)) && NonEmpty(Apply(r, e))
    ensures forall key | key in r.objects :: key in Apply(r, e).objects && r.objects[key] <= Apply(r, e).objects[key]
  {
    hide JobVerdict, MayAdd, IsOver, JobExists;
  }

  lemma {:induction false} VersionsStay(records: seq<Records>, events: seq<Event>, j: nat, k: nat, key: Key)
    requires IsRun(records, events) && j <= k < |records| && key in records[j].objects
    ensures LogsGrow(records[k]) && NonEmpty(records[k])
    ensures key in records[k].objects && records[j].objects[key] <= records[k].objects[key]
    decreases k
  {
    if k > 0 {
      assert events[k - 1] == events[k - 1];
      if j < k {
        VersionsStay(records, events, j, k - 1, key);
      } else {
        RunKeepsGrowth(records, events, k - 1);
      }
      StepKeepsGrowth(records[k - 1], events[k - 1]);
    }
  }

  lemma {:induction false} RunKeepsGrowth(records: seq<Records>, events: seq<Event>, k: nat)
    requires IsRun(records, events) && k < |records|
    ensures LogsGrow(records[k]) && NonEmpty(records[k])
  {
    if k > 0 {
      RunKeepsGrowth(records, events, k - 1);
      assert events[k - 1] == events[k - 1];
      StepKeepsGrowth(records[k - 1], events[k - 1]);
    }
  }

  lemma {:induction false} VerdictOfPrefix(log: seq<Condition>, longer: seq<Condition>)
    requires log <= longer && Verdict(log).Some?
    ensures Verdict(longer) == Verdict(log)
  {
    if !log[0].Terminal() {
      VerdictOfPrefix(log[1..], longer[1..]);
    }
  }

  // The verdict read off a log is its first terminal condition, by position.
  lemma {:induction false} VerdictIsFirst(log: seq<Condition>, k: nat)
    requires k < |log| && log[k].Terminal() && forall j | 0 <= j < k :: !log[j].Terminal()
    ensures Verdict(log) == Some(log[k])
  {
    if k > 0 {
      VerdictIsFirst(log[1..], k - 1);
    }
  }

  lemma {:induction false} NoVerdict(log: seq<Condition>)
    ensures Verdict(log) == None <==> !IsOver(log)
  {
    if log != [] {
      NoVerdict(log[1..]);
      assert IsOver(log) <==> log[0].Terminal() || IsOver(log[1..]) by {
        if k :| 0 <= k < |log| && log[k].Terminal() {
          assert k > 0 ==> log[1..][k - 1].Terminal();
        }
        if k :| 0 <= k < |log[1..]| && log[1..][k].Terminal() {
          assert log[k + 1].Terminal();
        }
      }
    }
  }

  // The verdict never flips: whoever reads it off any version of an object at any time agrees with every later reader,
  // who reads the same verdict or, off a version that is older, possibly none; even if jobs are deleted or change their
  // minds.
  lemma VerdictNeverFlips(records: seq<Records>, events: seq<Event>, j: nat, k: nat, key: Key, a: nat, b: nat)
    requires IsRun(records, events) && j <= k < |records|
    requires HasVersion(records[j], key, a) && HasVersion(records[k], key, b)
    requires Verdict(records[j].objects[key][a].conditions).Some?
    ensures var later := Verdict(records[k].objects[key][b].conditions);
            later == Verdict(records[j].objects[key][a].conditions) || (later == None && b < a)
  {
    VersionsStay(records, events, j, k, key);
    var first, second := records[j].objects[key][a].conditions, records[k].objects[key][b].conditions;
    assert records[j].objects[key][a] == records[k].objects[key][a];
    if a <= b {
      VerdictOfPrefix(first, second);
    } else if Verdict(second).Some? {
      VerdictOfPrefix(second, first);
    }
  }

  // Every verdict in a log is one that some version of the object's job gave.
  ghost predicate Honest(r: Records, key: Key) {
    key in r.objects ==>
      forall a, i | 0 <= a < |r.objects[key]| && 0 <= i < |r.objects[key][a].conditions| ::
        r.objects[key][a].conditions[i].Terminal() ==> JobSaid(r, key.JobId(), r.objects[key][a].conditions[i])
  }

  ghost predicate JobSaid(r: Records, id: (string, string), c: Condition) {
    id in r.jobs && exists v | v in r.jobs[id] :: v.Some? && JobVerdict(v.value) == Some(c)
  }

  lemma JobSaidOnce(r: Records, e: Event, id: (string, string), c: Condition)
    requires JobSaid(r, id, c) && Enabled(r, e)
    ensures JobSaid(Apply(r, e), id, c)
  {
    var v :| v in r.jobs[id] && v.Some? && JobVerdict(v.value) == Some(c);
    assert v in Apply(r, e).jobs[id];
  }

  lemma WriteIsHonest(r: Records, e: Event, i: nat)
    requires e.StatusWritten? && Enabled(r, e) && Honest(r, e.key)
    requires i < |e.written.conditions| && e.written.conditions[i].Terminal()
    ensures JobSaid(r, e.key.JobId(), e.written.conditions[i])
  {
    var log := Current(r, e.key).conditions;
    assert log == r.objects[e.key][e.read].conditions;
    var added := e.written.conditions[|log|..];
    assert e.written.conditions == log + added;
  }

  lemma StepKeepsHonesty(r: Records, e: Event, key: Key)
    requires Honest(r, key) && NonEmpty(r) && Enabled(r, e)
    ensures Honest(Apply(r, e), key)
  {
    var r' := Apply(r, e);
    if key in r'.objects {
      forall a, i | 0 <= a < |r'.objects[key]| && 0 <= i < |r'.objects[key][a].conditions|
                    && r'.objects[key][a].conditions[i].Terminal()
        ensures JobSaid(r', key.JobId(), r'.objects[key][a].conditions[i])
      {
        var c := r'.objects[key][a].conditions[i];
        if e.StatusWritten? && e.key == key && a + 1 == |r'.objects[key]| {
          WriteIsHonest(r, e, i);
        } else if e.Edited? && e.key == key && a + 1 == |r'.objects[key]| {
          assert c == r.objects[key][a - 1].conditions[i];
        } else {
          assert c == r.objects[key][a].conditions[i];
        }
        JobSaidOnce(r, e, key.JobId(), c);
      }
    }
  }

  // The verdict in an object's conditions is always one that its job gave.
  lemma {:induction false} VerdictsAreHonest(records: seq<Records>, events: seq<Event>, k: nat, key: Key)
    requires IsRun(records, events) && k < |records|
    ensures Honest(records[k], key)
  {
    if k > 0 {
      VerdictsAreHonest(records, events, k - 1, key);
      RunKeepsGrowth(records, events, k - 1);
      assert events[k - 1] == events[k - 1];
      StepKeepsHonesty(records[k - 1], events[k - 1], key);
    }
  }

  // ---------------------------------------------------------------- the shape of logs

  // How often the job has been deleted in the first k steps.
  ghost function Deletions(events: seq<Event>, k: nat, id: (string, string)): nat
    requires k <= |events|
  {
    multiset(events[..k])[JobDeleted(id)]
  }

  function Starts(log: seq<Condition>): nat {
    multiset(log)[Started]
  }

  // Starts, then a verdict at most.
  predicate StartsThenVerdict(log: seq<Condition>) {
    forall i | 0 <= i < |log| - 1 :: log[i] == Started
  }

  // The newest version may still get the note that its job has been launched.
  predicate StartIsOwed(r: Records, key: Key) {
    key in r.owed && IsNewest(r, key, r.owed[key])
  }

  // Every log is well-formed, the first is empty, and the starts noted or still owed come from different jobs.
  ghost predicate LogsInShape(r: Records, key: Key, deletions: nat) {
    key in r.objects ==>
      && |r.objects[key]| > 0 && r.objects[key][0].conditions == []
      && StartsThenVerdict(Current(r, key).conditions)
      && Starts(Current(r, key).conditions) + (if StartIsOwed(r, key) then 1 else 0)
         <= deletions + (if JobExists(r, key.JobId()) then 1 else 0)
  }

  // A launch is for a version that exists.
  predicate LaunchesFit(r: Records, key: Key) {
    && (key in r.owed ==> HasVersion(r, key, r.owed[key]))
    && (JobExists(r, key.JobId()) ==> key in r.objects)
  }

  lemma WriteKeepsShape(r: Records, e: Event, deletions: nat)
    requires e.StatusWritten? && Enabled(r, e) && LogsInShape(r, e.key, deletions) && LaunchesFit(r, e.key)
    ensures LogsInShape(Apply(r, e), e.key, deletions)
  {
    hide JobVerdict, Starts, StartsThenVerdict, MayAdd;
    WrittenIsInShape(r, e);
    WrittenStarts(r, e);
  }

  lemma WrittenIsInShape(r: Records, e: Event)
    requires e.StatusWritten? && Enabled(r, e) && StartsThenVerdict(Current(r, e.key).conditions)
    ensures StartsThenVerdict(e.written.conditions)
  {
    hide JobExists, JobVerdict;
    var log := Current(r, e.key).conditions;
    assert e.written.conditions == log + e.written.conditions[|log|..];
    assert !IsOver(log) ==> forall i | 0 <= i < |log| :: log[i] == Started;
  }

  lemma WrittenStarts(r: Records, e: Event)
    requires e.StatusWritten? && Enabled(r, e)
    ensures Starts(e.written.conditions)
            <= Starts(Current(r, e.key).conditions) + (if StartIsOwed(r, e.key) then 1 else 0)
  {
    var log := Current(r, e.key).conditions;
    var added := e.written.conditions[|log|..];
    assert e.written.conditions == log + added;
    assert multiset(e.written.conditions) == multiset(log) + multiset(added);
    assert |added| == 1 ==> added == [added[0]];
  }

  lemma StepKeepsShape(r: Records, e: Event, key: Key, deletions: nat)
    requires LogsInShape(r, key, deletions) && LaunchesFit(r, key) && Enabled(r, e)
    ensures LogsInShape(Apply(r, e), key, if e == JobDeleted(key.JobId()) then deletions + 1 else deletions)
    ensures LaunchesFit(Apply(r, e), key)
  {
    if e.Launched? && e.key.JobId() == key.JobId() {
      JobIdInjective(e.key, key);
    } else if e.StatusWritten? && e.key == key {
      WriteKeepsShape(r, e, deletions);
    }
  }

  lemma {:induction false} RunKeepsShape(records: seq<Records>, events: seq<Event>, k: nat, key: Key)
    requires IsRun(records, events) && k < |records|
    ensures LogsInShape(records[k], key, Deletions(events, k, key.JobId())) && LaunchesFit(records[k], key)
  {
    hide Enabled, Apply, LogsInShape;
    if k == 0 {
      NothingAtFirst(key);
    } else {
      assert events[k - 1] == events[k - 1];
      RunKeepsShape(records, events, k - 1, key);
      StepKeepsShape(records[k - 1], events[k - 1], key, Deletions(events, k - 1, key.JobId()));
      assert events[..k] == events[..k - 1] + [events[k - 1]];
    }
  }

  lemma NothingAtFirst(key: Key)
    ensures LogsInShape(Records(map[], map[], map[]), key, 0)
  {
  }

  // The conditions of every version of an object are starts, followed by at most one verdict, whatever versions the
  // handler has read and whatever jobs are deleted. There are at most as many starts as its job has been deleted, and
  // one more; so at most one if it never was.
  lemma LogShape(records: seq<Records>, events: seq<Event>, k: nat, key: Key, a: nat)
    requires IsRun(records, events) && k < |records| && HasVersion(records[k], key, a)
    ensures StartsThenVerdict(records[k].objects[key][a].conditions)
    ensures Starts(records[k].objects[key][a].conditions) <= 1 + Deletions(events, k, key.JobId())
  {
    RunKeepsShape(records, events, k, key);
    RunKeepsGrowth(records, events, k);
    var log, newest := records[k].objects[key][a].conditions, Current(records[k], key).conditions;
    assert newest == log + newest[|log|..];
    assert multiset(newest) == multiset(log) + multiset(newest[|log|..]);
  }

  // ---------------------------------------------------------------- how often a job is launched

  // When a job may be launched for an object: exactly when it has none, whatever its conditions say. The handler may
  // always have read the very first version of the object, which has no conditions.
  lemma MayLaunchExactly(records: seq<Records>, events: seq<Event>, k: nat, key: Key)
    requires IsRun(records, events) && k < |records| && key in records[k].objects
    ensures (exists read :: Enabled(records[k], Launched(key, read))) <==> !JobExists(records[k], key.JobId())
  {
    RunKeepsShape(records, events, k, key);
    if !JobExists(records[k], key.JobId()) {
      assert Enabled(records[k], Launched(key, 0));
    }
  }

  lemma JobStays(r: Records, e: Event, id: (string, string))
    requires JobExists(r, id) && Enabled(r, e) && e != JobDeleted(id)
    ensures JobExists(Apply(r, e), id)
  {
  }

  // A job that was there and is gone has been deleted.
  lemma {:induction false} DeletedAt(records: seq<Records>, events: seq<Event>, j: nat, k: nat, id: (string, string))
    returns (d: nat)
    requires IsRun(records, events) && j <= k < |records| && JobExists(records[j], id) && !JobExists(records[k], id)
    ensures j <= d < k && events[d] == JobDeleted(id)
    decreases k
  {
    hide Enabled, Apply, JobExists;
    d := k - 1;
    assert events[d] == events[d];
    if events[d] != JobDeleted(id) {
      if JobExists(records[d], id) {
        JobStays(records[d], events[d], id);
      }
      d := DeletedAt(records, events, j, d, id);
    }
  }

  // Between two launches for one object, its job has been deleted; so one that is never deleted is launched once.
  lemma LaunchedAgain(records: seq<Records>, events: seq<Event>, j: nat, k: nat) returns (d: nat)
    requires IsRun(records, events) && j < k < |events| && events[j].Launched? && events[k].Launched?
    requires events[j].key == events[k].key
    ensures j < d < k && events[d] == JobDeleted(events[k].key.JobId())
  {
    assert events[j].Launched? && events[k].Launched?;
    d := DeletedAt(records, events, j + 1, k, events[k].key.JobId());
  }

  lemma JobAppears(r: Records, e: Event, id: (string, string))
    requires Enabled(r, e) && id !in r.jobs && id in Apply(r, e).jobs
    ensures JobExists(Apply(r, e), id)
  {
  }

  lemma {:induction false} ExistedAt(records: seq<Records>, events: seq<Event>, k: nat, id: (string, string))
    returns (j: nat)
    requires IsRun(records, events) && k < |records| && id in records[k].jobs
    ensures j <= k && JobExists(records[j], id)
  {
    hide Enabled, Apply, JobExists;
    if k > 0 {
      assert events[k - 1] == events[k - 1];
      if id in records[k - 1].jobs {
        j := ExistedAt(records, events, k - 1, id);
      } else {
        JobAppears(records[k - 1], events[k - 1], id);
        j := k;
      }
    }
  }

  // A job launched for an object that already has a verdict: this takes both a copy of the object from before the
  // verdict and a job that has been deleted. By MayLaunchExactly it takes no more.
  lemma LateLaunch(records: seq<Records>, events: seq<Event>, k: nat) returns (d: nat)
    requires IsRun(records, events) && k < |events| && events[k].Launched?
    requires IsOver(Current(records[k], events[k].key).conditions)
    ensures !IsNewest(records[k], events[k].key, events[k].read)
    ensures d < k && events[d] == JobDeleted(events[k].key.JobId())
  {
    hide LogsGrow;
    assert events[k].Launched?;
    var key := events[k].key;
    RunKeepsGrowth(records, events, k);
    VerdictsAreHonest(records, events, k, key);
    var newest := |records[k].objects[key]| - 1;
    var i :| 0 <= i < |records[k].objects[key][newest].conditions|
             && records[k].objects[key][newest].conditions[i].Terminal();
    var j := ExistedAt(records, events, k, key.JobId());
    d := DeletedAt(records, events, j, k, key.JobId());
  }

  // ---------------------------------------------------------------- runs that show the limits

  // The object with its first job launched and noted.
  function Noted(key: Key, spec: Settings): Records {
    Records(map[key := [Object(spec, BLANK, []), Object(spec, BLANK, [Started])]],
            map[key.JobId() := [Some([])]], map[key := 0])
  }

  // The run goes on by one event.
  lemma Continue(records: seq<Records>, events: seq<Event>, e: Event)
    returns (records': seq<Records>, events': seq<Event>)
    requires IsRun(records, events) && Enabled(records[|events|], e)
    ensures IsRun(records', events') && |records'| == |events'| + 1 == |events| + 2
    ensures records'[|events|] == records[|events|] && events'[|events|] == e
    ensures records'[|events'|] == Apply(records[|events|], e)
  {
    hide Enabled, Apply;
    records', events' := records + [Apply(records[|events|], e)], events + [e];
  }

  lemma RunToNoted(key: Key, spec: Settings) returns (records: seq<Records>, events: seq<Event>)
    ensures IsRun(records, events) && records[|events|] == Noted(key, spec)
  {
    records, events := [Records(map[], map[], map[])], [];
    records, events := Continue(records, events, Admitted(key, spec));
    records, events := Continue(records, events, Launched(key, 0));
    var noted := Object(spec, BLANK, [Started]);
    assert noted.conditions[0..] == [Started];
    records, events := Continue(records, events, StatusWritten(key, 0, noted));
    assert records[|events|].objects[key] == Noted(key, spec).objects[key];
    assert records[|events|].jobs[key.JobId()] == Noted(key, spec).jobs[key.JobId()];
  }

  // The job is deleted, launched again for the version that notes the first launch, and noted once more.
  lemma TwoStarts(key: Key, spec: Settings) returns (records: seq<Records>, events: seq<Event>)
    ensures IsRun(records, events) && HasVersion(records[|events|], key, 0)
    ensures Current(records[|events|], key).conditions == [Started, Started]
  {
    var twice := Object(spec, BLANK, [Started, Started]);
    assert twice.conditions[1..] == [Started] && [Started] <= twice.conditions;
    records, events := RunToNoted(key, spec);
    records, events := Continue(records, events, JobDeleted(key.JobId()));
    records, events := Continue(records, events, Launched(key, 1));
    records, events := Continue(records, events, StatusWritten(key, 1, twice));
  }

  // The object is over, its job is deleted, and a handler that has read its first version launches another.
  lemma LaunchedOverAgain(key: Key, spec: Settings) returns (records: seq<Records>, events: seq<Event>)
    ensures IsRun(records, events) && |events| > 0 && events[|events| - 1] == Launched(key, 0)
    ensures HasVersion(records[|events| - 1], key, 0)
    ensures Current(records[|events| - 1], key).conditions == [Started, Finished]
  {
    var complete := [JobCondition(JobComplete, true)];
    var over := Object(spec, BLANK, [Started, Finished]);
    assert over.conditions[1..] == [Finished] && [Started] <= over.conditions;
    records, events := RunToNoted(key, spec);
    records, events := Continue(records, events, JobUpdated(key.JobId(), complete));
    assert records[|events|].jobs[key.JobId()][1] == Some(complete) && JobVerdict(complete) == Some(Finished);
    records, events := Continue(records, events, StatusWritten(key, 1, over));
    records, events := Continue(records, events, JobDeleted(key.JobId()));
    records, events := Continue(records, events, Launched(key, 0));
  }
}
