/** The source half of a move: one workload, remembered only by its own annotations.

    Every request of the destination (quiesce, backup, release, remove) is one atomic
    change of the source, as the Kubernetes API server serialises them.  Between the
    requests the cluster itself acts: pods start while the workload is asked to run,
    disappear while it is not, and write to the claims as long as one of them is left. */
module MoveSource {
  import opened Options

  type Name = string

  /** How a workload is asked to run, in the two fields a merge patch can touch.
      A Deployment without `replicas` runs one; a VM has a strategy or the older flag. */
  datatype Spec =
    | Deployment(replicas: Option<nat>)
    | Vm(strategy: Option<string>, running: Option<bool>)

  /** What the ORIGIN annotation remembers. */
  datatype RunState = Replicas(n: nat) | Strategy(s: string) | Flag(on: bool)

  function RunStateOf(spec: Spec): RunState {
    match spec
    case Deployment(r) => Replicas(if r.Some? then r.value else 1)
    case Vm(s, r) => if s.Some? then Strategy(s.value) else Flag(r.Some? && r.value)
  }

  /** The spec part of the patch that `quiesce` sends. */
  function Halted(spec: Spec): Spec {
    match spec
    case Deployment(_) => Deployment(Some(0))
    case Vm(s, r) => if s.Some? then Vm(Some("Halted"), r) else Vm(s, Some(false))
  }

  /** The merge patch `{"spec": origin}`: it writes one field and keeps the others. */
  function Patched(spec: Spec, to: RunState): Spec {
    match (spec, to)
    case (Vm(s, r), Strategy(t)) => Vm(Some(t), r)
    case (Vm(s, r), Flag(b)) => Vm(s, Some(b))
    case (Deployment(_), Replicas(n)) => Deployment(Some(n))
    case _ => spec
  }

  predicate Stopped(s: RunState) {
    s == Replicas(0) || s == Strategy("Halted") || s == Flag(false)
  }

  datatype Source = Source(
    present: bool,               // the workload object exists
    volumes: bool,               // its claims exist
    spec: Spec,
    origin: Option<RunState>,    // the ORIGIN annotation
    backups: map<Name, nat>,     // the BACKUPS annotation: claim -> backup
    pods: nat,                   // pods left, terminating ones included
    data: map<Name, int>)        // the content of each claim

  /** Every backup the shared bucket holds, with the content it was taken of. */
  type Bucket = map<nat, int>

  // ------------------------------------------------------------- requests

  /** `quiesce`: the first request remembers how the workload ran, later ones keep that. */
  function Quiesce(s: Source): Source {
    s.(origin := Some(if s.origin.Some? then s.origin.value else RunStateOf(s.spec)), spec := Halted(s.spec))
  }

  /** `backup` is refused unless the workload was stopped for a move and no pod is left. */
  predicate CanBackup(s: Source) { s.present && s.origin.Some? && s.pods == 0 }

  /** One `backup` request makes `made`: new backups of claims that have none.  It makes
      one for every such claim unless it fails part-way; what was made is recorded. */
  ghost predicate FreshBackups(s: Source, bucket: Bucket, claims: seq<Name>, made: map<Name, nat>) {
    && (forall c :: c in made ==> c in claims && c in s.data && c !in s.backups && made[c] !in bucket)
    && (forall c, d :: c in made && d in made && made[c] == made[d] ==> c == d)
  }

  function Backup(s: Source, made: map<Name, nat>): Source { s.(backups := s.backups + made) }

  ghost function Stored(s: Source, bucket: Bucket, made: map<Name, nat>): Bucket
    requires forall c :: c in made ==> c in s.data
  {
    map b | b in bucket.Keys + made.Values ::
      if b in bucket then bucket[b] else var c :| c in made && made[c] == b; s.data[c]
  }

  /** `release`: the remembered run state goes back, both annotations go away. */
  function Release(s: Source): Source {
    if s.origin.None? then s
    else s.(origin := None, backups := map[], spec := Patched(s.spec, s.origin.value))
  }

  /** `remove` is refused for a workload not stopped for a move, or one in use. */
  predicate CanRemove(s: Source) { s.present && s.origin.Some? && s.pods == 0 }

  function Remove(s: Source, volumes: bool): Source { s.(present := false, volumes := s.volumes && !volumes) }

  // ------------------------------------------------------------- facts

  function Quiesces(s: Source, n: nat): Source { if n == 0 then s else Quiesce(Quiesces(s, n - 1)) }

  /** Asked to stop any number of times, the source remembers what it was the first time,
      and putting it back runs it exactly so. */
  lemma {:induction false} RepeatedQuiesceReleases(s: Source, n: nat)
    requires s.origin.None? && n > 0
    ensures Quiesces(s, n).origin == Some(RunStateOf(s.spec))
    ensures Stopped(RunStateOf(Quiesces(s, n).spec))
    ensures RunStateOf(Release(Quiesces(s, n)).spec) == RunStateOf(s.spec)
    ensures Release(Quiesces(s, n)).origin.None? && Release(Quiesces(s, n)).data == s.data
  {
    if n > 1 {
      RepeatedQuiesceReleases(s, n - 1);
    }
    QuiescesKeepField(s, n);
  }

  /** A stop only ever writes the field the run state was read from. */
  lemma {:induction false} QuiescesKeepField(s: Source, n: nat)
    requires n > 0
    ensures Quiesces(s, n).spec == Halted(s.spec) && Quiesces(s, n).data == s.data
    ensures s.origin.None? ==> Quiesces(s, n).origin == Some(RunStateOf(s.spec))
    ensures s.origin.Some? ==> Quiesces(s, n).origin == s.origin
  {
    if n > 1 {
      QuiescesKeepField(s, n - 1);
    }
  }

  /** New backups are of the content at rest and leave the older ones alone. */
  lemma StoredKeepsContent(s: Source, bucket: Bucket, claims: seq<Name>, made: map<Name, nat>)
    requires FreshBackups(s, bucket, claims, made)
    ensures forall b :: b in bucket ==> b in Stored(s, bucket, made) && Stored(s, bucket, made)[b] == bucket[b]
    ensures forall c :: c in made ==>
      made[c] in Stored(s, bucket, made) && Stored(s, bucket, made)[made[c]] == s.data[c]
  {
    forall c | c in made
      ensures made[c] in Stored(s, bucket, made) && Stored(s, bucket, made)[made[c]] == s.data[c]
    {
      assert made[c] in made.Values;
    }
  }

  /** What the far side builds from a definition: the same object, stopped. */
  function StoppedCopy(spec: Spec): Spec {
    match spec
    case Deployment(_) => Deployment(Some(0))
    case Vm(_, _) => Vm(Some("Halted"), None)
  }

  /** How the far side ends up asking its copy to run: `_starting` sends no patch for an
      original that was stopped. */
  function Started(spec: Spec): Spec {
    var origin := RunStateOf(spec);
    if Stopped(origin) then StoppedCopy(spec) else Patched(StoppedCopy(spec), origin)
  }

  /** What a cluster does with a workload, in the workload's own fields: a Deployment runs
      unless it is asked for no replica, a VM unless its strategy is "Halted"; without a
      strategy the older flag decides. */
  predicate Runs(spec: Spec) {
    match spec
    case Deployment(replicas) => replicas != Some(0)
    case Vm(strategy, running) => if strategy.Some? then strategy.value != "Halted" else running == Some(true)
  }

  lemma StoppedIs(spec: Spec)
    ensures Stopped(RunStateOf(spec)) <==> !Runs(spec)
    ensures !Runs(Halted(spec)) && !Runs(StoppedCopy(spec))
  {
  }

  /** A patch back to how a workload ran makes it run as before, whatever it was patched to
      meanwhile in that field. */
  lemma PatchedRuns(spec: Spec)
    ensures Runs(Patched(Halted(spec), RunStateOf(spec))) <==> Runs(spec)
    ensures spec.Deployment? && spec.replicas.Some? ==> Patched(Halted(spec), RunStateOf(spec)) == spec
    ensures spec.Vm? && (spec.strategy.Some? || spec.running.Some?) ==> Patched(Halted(spec), RunStateOf(spec)) == spec
  {
  }

  /** The copy is stopped exactly when the original was, unless the original was a VM that
      ran by its older flag: its copy keeps the strategy "Halted" that `definition` gave it,
      whatever the flag says. */
  lemma StartPatchRunsAsBefore(spec: Spec)
    ensures (Runs(Started(spec)) <==> Runs(spec))
      <==> !(spec.Vm? && spec.strategy.None? && spec.running == Some(true))
  {
  }

  /** A copy not stopped runs just as its original did. */
  lemma StartedRunsAlike(spec: Spec)
    requires Runs(Started(spec))
    ensures RunStateOf(Started(spec)) == RunStateOf(spec)
  {
  }

  /** A VM that ran by its older flag stays stopped. */
  lemma FlaggedVmStaysHalted()
    ensures var spec := Vm(None, Some(true));
      Runs(spec) && !Runs(Started(spec)) && Started(spec) == Vm(Some("Halted"), Some(true))
  {
  }
}
