// The handler of backup and restore objects (pkg/backuprestore).
//
// It reads objects and jobs from caches that may lag behind; it lists secrets from the API server itself. One worker
// at a time handles an object, while users, jobs and the workers of other objects go on: Interfere stands for them.
module BackupRestore {
  import opened Wrappers
  import opened BackupObjects

  datatype Secret = Secret(labels: map<string, string>, data: map<string, string>)

  const DEFAULT_SECRET_FILENAME := "key.json"
  const NAMESPACE_DEFAULT := "default"

  function SecretNamespace(storage: Storage, fallback: string): string {
    var namespace := if storage.secretNamespace.Some? then storage.secretNamespace.value else fallback;
    if namespace == "" then NAMESPACE_DEFAULT else namespace
  }

  function SecretKey(storage: Storage): string {
    if storage.secretKey.Some? then storage.secretKey.value else DEFAULT_SECRET_FILENAME
  }

  // The secret that the storage names is missing, or has no such key.
  predicate SecretUnusable(secrets: map<(string, string), Secret>, storage: Storage, fallback: string) {
    var source := (SecretNamespace(storage, fallback), storage.secret);
    source !in secrets || SecretKey(storage) !in secrets[source].data
  }

  // The status differs from the spec, or a retention period is set.
  predicate StatusLags(obj: Object) {
    || obj.status.storage != obj.spec.storage || obj.status.target != obj.spec.target
    || obj.status.ttl.Some? || obj.spec.ttl.Some?
  }

  // The secret is one of those found by the object's selector.
  predicate BelongsTo(secrets: map<(string, string), Secret>, at: (string, string), key: Key) {
    at in secrets && at.0 == key.namespace && key.Selects(secrets[at].labels)
  }

  // The work of the given object's handler is not part of the event.
  predicate Foreign(e: Event, key: Key) {
    !((e.Launched? || e.StatusWritten?) && e.key == key)
  }

  // The versions of the object and of its job stay on record.
  ghost predicate Grown(r: Records, r': Records, key: Key) {
    && (key in r.objects ==> key in r'.objects && r.objects[key] <= r'.objects[key])
    && (key.JobId() in r.jobs ==> key.JobId() in r'.jobs && r.jobs[key.JobId()] <= r'.jobs[key.JobId()])
  }

  // What others leave alone while the object is handled: its history, and no job is launched for it.
  ghost predicate Apart(r: Records, r': Records, key: Key) {
    && Grown(r, r', key)
    && (key in r.owed <==> key in r'.owed) && (key in r.owed ==> r'.owed[key] == r.owed[key])
  }

  // What one pass adds to the conditions, given the version of the job it has seen: that it has launched the job, if
  // it has seen none; else the job's verdict, if it has one.
  ghost predicate Adds(r: Records, key: Key, read: nat, seen: Option<seq<JobCondition>>, added: seq<Condition>) {
    && key.JobId() in r.jobs
    && match seen
       case None => added == [Started] && key in r.owed && r.owed[key] == read
       case Some(conditions) =>
         && seen in r.jobs[key.JobId()]
         && added == match JobVerdict(conditions) { case None => [] case Some(verdict) => [verdict] }
  }

  lemma StillAdds(r: Records, r': Records, key: Key, read: nat, seen: Option<seq<JobCondition>>, added: seq<Condition>)
    requires Apart(r, r', key) && Adds(r, key, read, seen, added)
    ensures Adds(r', key, read, seen, added) && MayAdd(r', key, read, added)
  {
  }

  // No secret is made that the object's selector finds.
  ghost predicate NoneAdded(secrets: map<(string, string), Secret>, secrets': map<(string, string), Secret>, key: Key) {
    forall at | BelongsTo(secrets', at, key) :: BelongsTo(secrets, at, key)
  }

  class Api {
    var objects: map<Key, seq<Object>>
    var jobs: map<(string, string), seq<Option<seq<JobCondition>>>>
    var owed: map<Key, nat>
    var secrets: map<(string, string), Secret>
    ghost var fault: bool              // whether a possible call of the handler's present pass has failed
    ghost var parent: Option<Storage>  // what the parent cluster was last found to have as its backup storage
    ghost var records: seq<Records>
    ghost var events: seq<Event>

    constructor ()
      ensures Valid()
    {
      objects, jobs, owed, secrets := map[], map[], map[], map[];
      records, events := [Records(map[], map[], map[])], [];
    }

    function State(): Records
      reads this
    {
      Records(objects, jobs, owed)
    }

    ghost predicate Valid()
      reads this
    {
      IsRun(records, events) && records[|events|] == State()
    }

    // Makes an event happen.
    method Perform(e: Event)
      requires Valid() && Enabled(State(), e)
      modifies `objects, `jobs, `owed, `records, `events
      ensures Valid() && State() == Apply(old(State()), e)
    {
      var next := Apply(State(), e);
      objects, jobs, owed := next.objects, next.jobs, next.owed;
      records, events := records + [State()], events + [e];
    }

    // A pass of the handler begins.
    ghost method Start()
      modifies `fault
      ensures !fault
    {
      fault := false;
    }

    // A call that only reads.
    method Answers() returns (ok: bool)
      modifies `fault
      ensures fault == (old(fault) || !ok)
    {
      ok := *;
      fault := fault || !ok;
    }

    // The backup storage of the parent cluster, which may have none.
    method GetParentStorage() returns (storage: Option<Storage>)
      modifies `fault, `parent
      ensures storage == parent && (old(fault) ==> fault)
    {
      var reached := Answers();
      storage := *;
      storage := if reached then storage else None;
      parent := storage;
    }

    // Others act, apart from the given object's handler.
    method Interfere(key: Key)
      requires Valid()
      modifies `objects, `jobs, `owed, `secrets, `records, `events
      ensures Valid() && Apart(old(State()), State(), key) && NoneAdded(old(secrets), secrets, key)
    {
      var steps: nat := *;
      while steps > 0
        invariant Valid() && Apart(old(State()), State(), key) && NoneAdded(old(secrets), secrets, key)
      {
        steps := steps - 1;
        var e: Event := *;
        if Foreign(e, key) && Enabled(State(), e) {
          StaysApart(old(State()), State(), e, key);
          Perform(e);
        }
        var at: (string, string), secret: Secret := *, *;
        if at.0 != key.namespace || !key.Selects(secret.labels) {
          secrets := secrets[at := secret];
        } else {
          secrets := secrets - {at};
        }
      }
    }

    lemma StaysApart(r: Records, s: Records, e: Event, key: Key)
      requires Apart(r, s, key) && Foreign(e, key) && Enabled(s, e)
      ensures Apart(r, Apply(s, e), key)
    {
    }

    // What the lister of jobs answers: any version that the job has had, or that there is none.
    method GetJob(id: (string, string)) returns (r: Result<Option<seq<JobCondition>>>)
      modifies `fault
      ensures r.Ok? && r.value.Some? ==> id in jobs && r.value in jobs[id]
      ensures fault == (old(fault) || r.Err?)
    {
      var v: int := *;
      var reached := Answers();
      if !reached {
        return Err;
      }
      if id in jobs && 0 <= v < |jobs[id]| {
        return Ok(jobs[id][v]);
      }
      return Ok(None);
    }

    // Creates the object's job; the server refuses a second one of the same name.
    method CreateJob(key: Key, read: nat) returns (ok: bool)
      requires Valid() && HasVersion(State(), key, read) && !IsOver(objects[key][read].conditions)
      modifies `objects, `jobs, `owed, `records, `events, `fault
      ensures Valid() && Grown(old(State()), State(), key) && objects == old(objects)
      ensures (old(fault) ==> fault) && (!ok ==> fault || JobExists(State(), key.JobId()))
      ensures ok ==> !JobExists(old(State()), key.JobId()) && JobExists(State(), key.JobId())
      ensures ok ==> key in owed && owed[key] == read
    {
      if JobExists(State(), key.JobId()) {
        return false;
      }
      var landed: bool := *;
      ok := Answers();
      if landed {
        Perform(Launched(key, read));
      } else {
        ok, fault := false, true;
      }
    }

    // Writes the status of the object; the server refuses a write based on any but the newest version, and keeps the
    // spec it has.
    method UpdateStatus(key: Key, read: nat, obj: Object) returns (ok: bool)
      requires Valid() && HasVersion(State(), key, read)
      requires IsNewest(State(), key, read) ==>
                 Enabled(State(), StatusWritten(key, read, obj.(spec := objects[key][read].spec)))
      modifies `objects, `jobs, `owed, `records, `events, `fault
      ensures Valid() && Apart(old(State()), State(), key)
      ensures (old(fault) ==> fault) && (!ok ==> fault || !IsNewest(State(), key, read))
      ensures ok ==> fault == old(fault) && IsNewest(old(State()), key, read)
                     && objects[key] == old(objects[key]) + [obj.(spec := old(objects[key][read].spec))]
      ensures !ok ==> objects == old(objects) || IsNewest(old(State()), key, read)
    {
      if read + 1 != |objects[key]| {
        return false;
      }
      var landed: bool := *;
      ok := Answers();
      if landed {
        Perform(StatusWritten(key, read, obj.(spec := objects[key][read].spec)));
      } else {
        ok, fault := false, true;
      }
    }

    // Deletes a secret; a call that reports success has deleted it.
    method DeleteSecret(at: (string, string)) returns (ok: bool)
      modifies `secrets, `fault
      ensures secrets == old(secrets) - {at} || (!ok && secrets == old(secrets))
      ensures fault == (old(fault) || !ok)
    {
      var landed: bool := *;
      ok := *;
      if landed {
        secrets := secrets - {at};
      } else {
        ok := false;
      }
      fault := fault || !ok;
    }

    // Creates a secret under a name with the given prefix that is not yet taken.
    method CreateSecret(namespace: string, prefix: string, secret: Secret) returns (r: Result<(string, string)>)
      modifies `secrets, `fault
      ensures fault == (old(fault) || r.Err?)
      ensures
        || secrets == old(secrets)
        || (exists at :: at !in old(secrets) && at.0 == namespace && secrets == old(secrets)[at := secret])
      ensures r.Ok? ==> r.value in secrets && secrets[r.value] == secret
    {
      var suffix: string, ok: bool := *, *;
      var at := (namespace, prefix + suffix);
      if at in secrets {
        fault := true;
        return Err;
      }
      secrets := secrets[at := secret];
      r := if ok then Ok(at) else Err;
      fault := fault || r.Err?;
    }
  }

  class BackupRestoreHandler {
    const api: Api

    constructor (api: Api)
      ensures this.api == api
    {
      this.api := api;
    }

    method IsFailedOrFinished(obj: Object) returns (over: bool)
      ensures over <==> IsOver(obj.conditions)
    {
      for k := 0 to |obj.conditions|
        invariant forall j | 0 <= j < k :: !obj.conditions[j].Terminal()
      {
        if obj.conditions[k].Terminal() {
          return true;
        }
      }
      return false;
    }

    // Copies the spec into the status. Retention periods are compared by address, so that one that is set always
    // counts as changed.
    method SyncStatusWithSpec(obj: Object) returns (mustUpdate: bool, synced: Object)
      ensures synced == obj.(status := obj.spec)
      ensures mustUpdate <==>
                || obj.status.storage != obj.spec.storage || obj.status.target != obj.spec.target
                || obj.status.ttl.Some? || obj.spec.ttl.Some?
      ensures mustUpdate <==> StatusLags(obj)
      ensures !mustUpdate ==> synced == obj
    {
      synced, mustUpdate := obj, false;
      if synced.status.storage != synced.spec.storage {
        synced := synced.(status := synced.status.(storage := synced.spec.storage));
        mustUpdate := true;
      }
      if synced.status.target != synced.spec.target {
        synced := synced.(status := synced.status.(target := synced.spec.target));
        mustUpdate := true;
      }
      if synced.status.ttl.Some? || synced.spec.ttl.Some? {
        synced := synced.(status := synced.status.(ttl := synced.spec.ttl));
        mustUpdate := true;
      }
    }

    // Deletes the secrets that the object's selector finds, one by one. On success none is left; in any case every
    // other secret stays as it was.
    method ClearSecrets(key: Key) returns (ok: bool)
      modifies api`secrets, api`fault
      ensures api.fault == (old(api.fault) || !ok)
      ensures forall at | at in old(api.secrets) && !BelongsTo(old(api.secrets), at, key) ::
                at in api.secrets && api.secrets[at] == old(api.secrets[at])
      ensures forall at | at in api.secrets :: at in old(api.secrets) && api.secrets[at] == old(api.secrets[at])
      ensures ok ==> forall at :: !BelongsTo(api.secrets, at, key)
    {
      var listed := api.Answers();
      if !listed {
        return false;
      }
      var items := set at | at in api.secrets && at.0 == key.namespace && key.Selects(api.secrets[at].labels);
      while items != {}
        invariant api.fault == old(api.fault)
        invariant forall at | at in items :: BelongsTo(old(api.secrets), at, key)
        invariant forall at | at in old(api.secrets) && !BelongsTo(old(api.secrets), at, key) ::
                    at in api.secrets && api.secrets[at] == old(api.secrets[at])
        invariant forall at | at in api.secrets :: at in old(api.secrets) && api.secrets[at] == old(api.secrets[at])
        invariant forall at | BelongsTo(api.secrets, at, key) :: at in items
        decreases items
      {
        var at :| at in items;
        items := items - {at};
        ok := api.DeleteSecret(at);
        if !ok {
          return;
        }
      }
      return true;
    }

    // Finds the secret that gives access to the storage, copying it into the object's namespace if it is elsewhere.
    method GetSecret(key: Key, storage: Storage) returns (r: Result<(string, string)>)
      modifies api`secrets, api`fault
      ensures old(api.fault) ==> api.fault
      ensures r.Err? ==> api.fault || (SecretNamespace(storage, key.namespace), storage.secret) !in api.secrets
      ensures SecretNamespace(storage, key.namespace) ==
              match storage.secretNamespace
              case Some(namespace) => if namespace == "" then "default" else namespace
              case None => if key.namespace == "" then "default" else key.namespace
      ensures var source := (SecretNamespace(storage, key.namespace), storage.secret);
              r.Ok? ==>
                && source in old(api.secrets) && r.value in api.secrets
                && api.secrets[r.value].data == old(api.secrets)[source].data
                && (source.0 == key.namespace ==> r.value == source)
      ensures forall at | at in old(api.secrets) :: at in api.secrets && api.secrets[at] == old(api.secrets[at])
      ensures forall at | at in api.secrets && at !in old(api.secrets) :: BelongsTo(api.secrets, at, key)
    {
      var reached := api.Answers();
      var at := (SecretNamespace(storage, key.namespace), storage.secret);
      if !reached {
        return Err;
      }
      if at !in api.secrets {
        return Err;
      }
      if at.0 == key.namespace {
        return Ok(at);
      }
      r := api.CreateSecret(key.namespace, at.1 + "-", Secret(key.Labels(), api.secrets[at].data));
    }

    // Launches the object's job and notes it in the conditions.
    method LaunchJob(key: Key, read: nat, obj: Object, secret: Secret) returns (r: Result<Object>)
      requires api.Valid() && HasVersion(api.State(), key, read) && !IsOver(api.objects[key][read].conditions)
      requires obj.spec.storage.Some?
      modifies api`objects, api`jobs, api`owed, api`records, api`events, api`fault
      ensures api.Valid() && Grown(old(api.State()), api.State(), key) && api.objects == old(api.objects)
      ensures old(api.fault) ==> api.fault
      ensures r.Ok? ==> match obj.spec.storage.value.secretKey
                        case Some(name) => name in secret.data
                        case None => "key.json" in secret.data
      ensures r.Err? ==>
                || api.fault || SecretKey(obj.spec.storage.value) !in secret.data
                || JobExists(api.State(), key.JobId())
      ensures r.Ok? ==> r.value == obj.(conditions := obj.conditions + [Started])
      ensures r.Ok? ==> !JobExists(old(api.State()), key.JobId()) && JobExists(api.State(), key.JobId())
      ensures r.Ok? ==> key in api.owed && api.owed[key] == read
    {
      if SecretKey(obj.spec.storage.value) !in secret.data {
        return Err;
      }
      var created := api.CreateJob(key, read);
      r := if created then Ok(obj.(conditions := obj.conditions + [Started])) else Err;
    }

    // Adds that the job has finished exactly if the first of its conditions that decide says that it is complete, that
    // it has failed exactly if that one says so, and nothing exactly if none decides.
    method MaybeSetConditions(obj: Object, conditions: seq<JobCondition>) returns (r: Object)
      ensures r == obj.(conditions := r.conditions)
      ensures r.conditions == obj.conditions + [Finished] <==> Decided(conditions, JobComplete)
      ensures r.conditions == obj.conditions + [Failed] <==> Decided(conditions, JobFailed)
      ensures r == obj <==> forall k | 0 <= k < |conditions| :: !Decisive(conditions[k])
      ensures var verdict := JobVerdict(conditions);
              r.conditions == obj.conditions + if verdict.Some? then [verdict.value] else []
    {
      JobVerdictExactly(conditions);
      assert (obj.conditions + [Finished])[|obj.conditions|] == Finished;
      assert (obj.conditions + [Failed])[|obj.conditions|] == Failed;
      var jobCondition: Option<JobConditionKind> := None;
      var k := 0;
      while k < |conditions|
        invariant 0 <= k <= |conditions| && jobCondition == None
        invariant forall j | 0 <= j < k :: !Decisive(conditions[j])
      {
        var c := conditions[k];
        if c.kind == JobComplete && c.holds {
          assert DecidedAt(conditions, k, JobComplete);
          jobCondition := Some(JobComplete);
          break;
        }
        if c.kind == JobFailed && c.holds {
          assert DecidedAt(conditions, k, JobFailed);
          jobCondition := Some(JobFailed);
          break;
        }
        k := k + 1;
      }
      if jobCondition == Some(JobComplete) {
        return obj.(conditions := obj.conditions + [Finished]);
      }
      if jobCondition == Some(JobFailed) {
        return obj.(conditions := obj.conditions + [Failed]);
      }
      return obj;
    }

    // The next version of the object has the settings of the given one's spec in its status, and nothing else is new.
    predicate Synced(obj: Object, key: Key, read: nat)
      reads api
    {
      HasVersion(api.State(), key, read + 1) && api.objects[key][read + 1] == obj.(status := obj.spec)
    }

    // The terminal part of Handle: nothing is added to the conditions any more, and the secrets are cleared.
    method FinishUp(key: Key, read: nat) returns (ok: bool)
      requires api.Valid() && HasVersion(api.State(), key, read) && IsOver(api.objects[key][read].conditions)
      modifies api
      ensures api.Valid() && Apart(old(api.State()), api.State(), key) && NoneAdded(old(api.secrets), api.secrets, key)
      ensures (old(api.fault) ==> api.fault) && (!ok ==> api.fault || !IsNewest(api.State(), key, read))
      ensures ok && StatusLags(old(api.objects)[key][read]) ==> Synced(old(api.objects)[key][read], key, read)
      ensures ok ==> forall at :: !BelongsTo(api.secrets, at, key)
    {
      var obj := api.objects[key][read];
      var mustUpdate, synced := SyncStatusWithSpec(obj);
      if mustUpdate {
        ok := api.UpdateStatus(key, read, synced);
        if !ok {
          return;
        }
      }
      api.Interfere(key);
      ok := ClearSecrets(key);
    }

    // Launches the job if the lister knows of none, and otherwise looks at its verdict. The conditions that this adds
    // may be written to the version that was read.
    method CheckJob(key: Key, read: nat, obj: Object)
      returns (r: Result<Object>, ghost seen: Option<seq<JobCondition>>)
      requires api.Valid() && HasVersion(api.State(), key, read) && !IsOver(api.objects[key][read].conditions)
      requires obj.spec.storage.Some? && obj.conditions == api.objects[key][read].conditions
      modifies api
      ensures api.Valid() && HasVersion(api.State(), key, read) && api.parent == old(api.parent)
      ensures r.Err? ==>
                || api.fault || SecretUnusable(api.secrets, obj.spec.storage.value, key.namespace)
                || (seen == None && JobExists(api.State(), key.JobId()))
      ensures api.objects[key][read] == old(api.objects)[key][read]
      ensures r.Ok? ==> r.value.(conditions := obj.conditions) == obj && obj.conditions <= r.value.conditions
      ensures r.Ok? ==> Adds(api.State(), key, read, seen, r.value.conditions[|obj.conditions|..])
    {
      var job := api.GetJob(key.JobId());
      if job.Err? {
        return Err, None;
      }
      seen := job.value;
      if job.value.Some? {
        var checked := MaybeSetConditions(obj, job.value.value);
        return Ok(checked), seen;
      }
      api.Interfere(key);
      var secret := GetSecret(key, obj.spec.storage.value);
      if secret.Err? {
        return Err, None;
      }
      r := LaunchJob(key, read, obj, api.secrets[secret.value]);
    }

    // The part of Handle for an object whose conditions are not over: its job is launched or looked at, and what comes
    // of that is written, with the spec's settings and the storage found, to the version that was read.
    method Process(key: Key, read: nat) returns (ok: bool, ghost seen: Option<seq<JobCondition>>)
      requires api.Valid() && HasVersion(api.State(), key, read) && !IsOver(api.objects[key][read].conditions)
      modifies api
      ensures api.Valid() && HasVersion(api.State(), key, read)
      ensures var obj := old(api.objects)[key][read];
              var storage := if obj.spec.storage.Some? then obj.spec.storage else api.parent;
              && (ok ==> WrittenBy(obj, storage, key, read, seen))
              && (!ok ==> Refused(storage, key, read, seen))
    {
      hide IsRun;
      var obj := api.objects[key][read];
      seen := None;
      if obj.spec.storage.None? {
        var storage := api.GetParentStorage();
        if storage.None? {
          ok := false;
          return;
        }
        obj := obj.(spec := obj.spec.(storage := storage));
      }
      api.Interfere(key);
      var checked;
      checked, seen := CheckJob(key, read, obj);
      if checked.Err? {
        ok := false;
        return;
      }
      var mustUpdate, synced := SyncStatusWithSpec(checked.value);
      ghost var before := api.State();
      api.Interfere(key);
      StillAdds(before, api.State(), key, read, seen, synced.conditions[|obj.conditions|..]);
      ok := api.UpdateStatus(key, read, synced);
    }

    // The version that was read was the newest; the one after it has the settings and the storage given in its status,
    // and adds to the conditions exactly what the pass has done or seen.
    ghost predicate WrittenBy(obj: Object, storage: Option<Storage>, key: Key, read: nat,
                              seen: Option<seq<JobCondition>>)
      reads api
    {
      && IsNewest(api.State(), key, read + 1)
      && var current := Current(api.State(), key);
         && obj.conditions <= current.conditions
         && Adds(api.State(), key, read, seen, current.conditions[|obj.conditions|..])
         && current == obj.(status := obj.spec.(storage := storage), conditions := current.conditions)
    }

    // What may be behind an error: a call has failed; there is no storage, in the parent cluster either, where the
    // operator crashes; its secret cannot be used; the job that the lister has not shown is there; or the version that
    // was read is no longer the newest.
    ghost predicate Refused(storage: Option<Storage>, key: Key, read: nat, seen: Option<seq<JobCondition>>)
      reads api
    {
      || api.fault || storage == None
      || SecretUnusable(api.secrets, storage.value, key.namespace)
      || (seen == None && JobExists(api.State(), key.JobId()))
      || !IsNewest(api.State(), key, read)
    }

    // Handles the version of the object that the cache holds. A pass over an object whose conditions are over launches
    // nothing and, if it succeeds, brings the status up to date and leaves no temporary secret of the object; a pass
    // over any other one succeeds only if that version was the newest, and then adds to its conditions exactly what it
    // has done or seen. It fails only if a call fails; if there is no storage, in the parent cluster either, or its
    // secret cannot be used; if its job is there although the lister knows of none; or if there is a newer version.
    method Handle(key: Key, read: nat) returns (ok: bool, ghost seen: Option<seq<JobCondition>>)
      requires api.Valid() && HasVersion(api.State(), key, read)
      modifies api
      ensures api.Valid() && HasVersion(api.State(), key, read)
      ensures var obj := old(api.objects)[key][read];
              if IsOver(obj.conditions) then
                && Apart(old(api.State()), api.State(), key) && NoneAdded(old(api.secrets), api.secrets, key)
                && (ok ==> forall at :: !BelongsTo(api.secrets, at, key))
                && (ok && StatusLags(obj) ==> Synced(obj, key, read))
                && (!ok ==> api.fault || !IsNewest(api.State(), key, read))
              else
                var storage := if obj.spec.storage.Some? then obj.spec.storage else api.parent;
                && (ok ==> WrittenBy(obj, storage, key, read, seen))
                && (!ok ==> Refused(storage, key, read, seen))
    {
      api.Start();
      seen := None;
      var over := IsFailedOrFinished(api.objects[key][read]);
      if over {
        ok := FinishUp(key, read);
      } else {
        ok, seen := Process(key, read);
      }
    }
  }
}
