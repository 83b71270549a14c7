/** The destination half of a move, and the whole two-cluster protocol.

    The engine works on a copy of the move's record and stores it once per tick; every
    remote call, and every store, is one step of this machine.  A tick, an `abandon` or a
    `finish` may die between any two steps, and a reply may be lost after its effect.
    Steps of the tick, of any number of people's requests, of the two clusters and of
    crashes interleave freely. */
module MoveProtocol {
  import opened Options
  import opened MoveSource

  const MAX_TRANSIENT := 120

  // ------------------------------------------------------------- the destination

  datatype Key = Workload | Service(name: Name) | Secret(name: Name) | Pvc(claim: Name)

  /** `asked`: the start patch was sent.  A volume is filled from a backup over time. */
  datatype Body = Shape(spec: Spec, asked: bool) | Volume(backup: nat, restored: bool) | Plain

  /** An object and the move id it is stamped with, if any. */
  datatype Obj = Obj(stamp: Option<string>, body: Body)

  // ------------------------------------------------------------- the record

  datatype Status = Running | Succeeded | Failed | Cancelled
  datatype Phase = Joining | Quiescing | BackingUp | Syncing | Restoring | Creating | Starting | Done

  function Rank(p: Phase): nat {
    match p
    case Joining => 0 case Quiescing => 1 case BackingUp => 2 case Syncing => 3
    case Restoring => 4 case Creating => 5 case Starting => 6 case Done => 7
  }

  datatype Row = Row(backup: Option<nat>, created: bool, restored: bool)

  /** `claims` follows the claims of the move, one row each. */
  datatype Record = Record(
    status: Status, phase: Phase, progress: nat, quiesced: bool, backedUp: bool, started: bool,
    claims: seq<Row>, origin: RunState, failures: nat, sourceRemoved: bool, updatedAt: nat)

  function Note(m: Record, progress: nat): Record {
    m.(progress := if m.progress < progress then progress else m.progress)
  }

  function Advance(m: Record, phase: Phase, progress: nat): Record { Note(m.(phase := phase), progress) }

  function Succeed(m: Record): Record { m.(status := Succeeded, phase := Done, progress := 100) }

  /** How `_tick` takes an exception: Unreachable is waited out for a while, a refusal
      ends the move, anything else is waited out for good. */
  datatype Fault = Unreachable | Refused | Http

  function Faulted(m: Record, f: Fault): Record {
    match f
    case Refused => m.(status := Failed)
    case Http => m.(failures := m.failures + 1)
    case Unreachable =>
      m.(failures := m.failures + 1, status := if m.failures + 1 > MAX_TRANSIENT then Failed else m.status)
  }

  // ------------------------------------------------------------- the whole system

  /** Where a tick stands: the call it makes next. */
  datatype Pc =
    | Begin
    | AskStatus
    | AskBackups
    | RestoreGet(i: nat)
    | RestorePost(i: nat)
    | CheckRestored(i: nat)
    | CreateGet(keys: seq<Key>, j: nat, origin: RunState)
    | CreatePost(keys: seq<Key>, j: nat, origin: RunState)
    | AskReady
    | End

  datatype Tick = Idle | Busy(m: Record, pc: Pc)

  /** Where an `abandon` stands. */
  datatype APc =
    | StoreCancelled | CallRelease
    | GetWorkload | DeleteWorkload
    | ListServices | DeleteServices(left: set<Key>)
    | ListSecrets | DeleteSecrets(left: set<Key>)
    | GetClaim(i: nat) | DeleteClaim(i: nat)
    | StoreMessage | Finished

  /** A person's request in flight, with the record it read. `listed` says which of the
      two listings answered: a listing that fails is taken for an empty one. */
  datatype Thread =
    | Abandon(m: Record, apc: APc, services: bool, secrets: bool)
    | Finish(m: Record, removed: bool)

  /** What one move is about: its id, the claims the workload mounts, how the workload
      ran, and what the destination's namespace held before. */
  datatype Setup = Setup(id: string, claims: seq<Name>, spec: Spec, before: map<Key, Obj>)

  ghost predicate ValidSetup(k: Setup) {
    && (forall i, j :: 0 <= i < j < |k.claims| ==> k.claims[i] != k.claims[j])
    && (forall o :: o in k.before ==> k.before[o].stamp != Some(k.id))
  }

  /** `landed` and `released` are history: a tick stored "succeeded", a release call of an
      `abandon` was carried out. */
  datatype World = World(
    src: Source, bucket: Bucket, dest: map<Key, Obj>,
    rec: Option<Record>, tick: Tick, people: map<nat, Thread>,
    landed: bool, released: bool)

  predicate Ours(k: Setup, w: World, o: Key) { o in w.dest && w.dest[o].stamp == Some(k.id) }

  function Fresh(k: Setup, now: nat): Record {
    Record(Running, Joining, 1, false, false, false, seq(|k.claims|, i => Row(None, false, false)),
           RunStateOf(k.spec), 0, false, now)
  }

  /** `start` has just stored the record; no move has touched either cluster. */
  ghost predicate Init(k: Setup, w: World) {
    && ValidSetup(k)
    && w.src.present && w.src.volumes && w.src.spec == k.spec && w.src.origin.None? && w.src.backups == map[]
    && (forall i :: 0 <= i < |k.claims| ==> k.claims[i] in w.src.data)
    && w.dest == k.before
    && (exists now :: w.rec == Some(Fresh(k, now)))
    && w.tick == Idle && w.people == map[] && !w.landed && !w.released
  }

  // ------------------------------------------------------------- the two clusters

  datatype ClusterStep = PodStarts | PodGoes | PodWrites(c: Name, d: int) | VolumeFills(c: Name)

  predicate ClusterCan(k: Setup, w: World, a: ClusterStep) {
    match a
    case PodStarts => w.src.present && !Stopped(RunStateOf(w.src.spec))
    case PodGoes => w.src.pods > 0 && (!w.src.present || Stopped(RunStateOf(w.src.spec)))
    case PodWrites(c, d) => w.src.pods > 0 && c in w.src.data
    case VolumeFills(c) => Ours(k, w, Pvc(c)) && w.dest[Pvc(c)].body.Volume?
  }

  function ClusterDoes(k: Setup, w: World, a: ClusterStep): World
    requires ClusterCan(k, w, a)
  {
    match a
    case PodStarts => w.(src := w.src.(pods := w.src.pods + 1))
    case PodGoes => w.(src := w.src.(pods := w.src.pods - 1))
    case PodWrites(c, d) => w.(src := w.src.(data := w.src.data[c := d]))
    case VolumeFills(c) =>
      var o := w.dest[Pvc(c)];
      w.(dest := w.dest[Pvc(c) := o.(body := o.body.(restored := true))])
  }

  // ------------------------------------------------------------- the engine's tick

  /** One step of a tick.  `lost` is a call whose effect happened and whose reply did not
      arrive; `wait`, `visible`, `ready` and the progress figures are the clusters' answers. */
  datatype TickStep =
    | Reads
    | Faults(f: Fault)
    | Stores(now: nat)
    | Joins
    | CallsQuiesce(lost: bool)
    | SeesPods
    | CallsBackup(made: map<Name, nat>, lost: bool)
    | SeesBackups(done: set<Name>, progress: nat)
    | Syncs(visible: bool)
    | BeginsRestore
    | GetsClaim(wait: bool)
    | PostsClaim(lost: bool)
    | SeesVolume
    | SeesVolumes(progress: nat)
    | GetsDefinition(extras: seq<Key>)
    | GetsObject(skip: bool)
    | PostsObject(lost: bool)
    | EndsCreating
    | CallsStart(lost: bool)
    | SeesReady(ready: bool)

  predicate At(w: World, phase: Phase) { w.tick.Busy? && w.tick.pc == Begin && w.tick.m.phase == phase }

  /** What a handler may touch: the clusters and its own copy of the record. */
  predicate Handles(w: World, w': World) {
    && w'.people == w.people && w'.released == w.released && w'.rec == w.rec && w'.landed == w.landed && w'.tick.Busy?
    && w'.src.present == w.src.present && w'.src.volumes == w.src.volumes
  }

  /** It has made a call, and left the source's origin and what is here where they were. */
  predicate Leaves(w: World, w': World) {
    && w'.tick.Busy? && w'.tick.pc != Begin
    && w'.src.origin == w.src.origin && w'.dest.Keys == w.dest.Keys
  }

  /** A handler that has come here posts nothing any more. */
  predicate PostsNothing(pc: Pc) { pc.End? || pc.AskStatus? || pc.AskBackups? || pc.AskReady? || pc.CheckRestored? }

  function Next(w: World, m: Record, pc: Pc): World { w.(tick := Busy(m, pc)) }

  /** The handler returned: the failure count starts again. */
  function Ends(w: World, m: Record): World { Next(w, m.(failures := 0), End) }

  function Lost(w: World, m: Record): World { Next(w, Faulted(m, Unreachable), End) }

  predicate AllRestored(m: Record) { forall i :: 0 <= i < |m.claims| ==> m.claims[i].restored }

  /** Every backup of the record can be read from the shared bucket. */
  predicate BackupsReadable(w: World, m: Record) {
    forall i :: 0 <= i < |m.claims| ==> m.claims[i].backup.Some? && m.claims[i].backup.value in w.bucket
  }

  /** `_backing_up` copies the names the source recorded into the rows. */
  function NameBackups(k: Setup, rows: seq<Row>, backups: map<Name, nat>): (r: seq<Row>)
    requires |rows| == |k.claims|
    ensures |r| == |rows|
  {
    seq(|rows|, i requires 0 <= i < |rows| =>
      if k.claims[i] in backups then rows[i].(backup := Some(backups[k.claims[i]])) else rows[i])
  }

  predicate IsExtra(o: Key) { o.Service? || o.Secret? }

  predicate RowsFit(k: Setup, w: World) { w.tick.Busy? && |w.tick.m.claims| == |k.claims| }

  predicate CanRead(w: World) { w.tick.Idle? && w.rec.Some? && w.rec.value.status == Running }

  predicate CanQuiesce(w: World, lost: bool) {
    At(w, Quiescing) && (if w.tick.m.quiesced then !lost else w.src.present)
  }

  predicate CanSeePods(w: World) { w.tick.Busy? && w.tick.pc == AskStatus && w.src.present }

  ghost predicate CanCallBackup(k: Setup, w: World, made: map<Name, nat>, lost: bool) {
    At(w, BackingUp) && RowsFit(k, w) &&
    (if w.tick.m.backedUp then made == map[] && !lost
     else CanBackup(w.src) && FreshBackups(w.src, w.bucket, k.claims, made))
  }

  predicate CanSeeBackups(w: World, done: set<Name>, progress: nat) {
    w.tick.Busy? && w.tick.pc == AskBackups && w.src.present && done <= w.src.backups.Keys && progress <= 50
  }

  predicate CanGetClaim(k: Setup, w: World) {
    RowsFit(k, w) && w.tick.pc.RestoreGet? && w.tick.pc.i < |k.claims| &&
    (var o := Pvc(k.claims[w.tick.pc.i]); w.tick.m.claims[w.tick.pc.i].created || o !in w.dest || Ours(k, w, o))
  }

  predicate CanPostClaim(k: Setup, w: World) {
    RowsFit(k, w) && w.tick.pc.RestorePost? && w.tick.pc.i < |k.claims| &&
    Pvc(k.claims[w.tick.pc.i]) !in w.dest && w.tick.m.claims[w.tick.pc.i].backup.Some?
  }

  predicate CanSeeVolume(k: Setup, w: World) {
    RowsFit(k, w) && w.tick.pc.CheckRestored? && w.tick.pc.i < |k.claims|
  }

  predicate CanSeeVolumes(k: Setup, w: World, progress: nat) {
    RowsFit(k, w) && w.tick.pc == CheckRestored(|k.claims|) && progress <= 85
  }

  predicate CanGetDefinition(w: World, extras: seq<Key>) {
    At(w, Creating) && w.src.present && forall i :: 0 <= i < |extras| ==> IsExtra(extras[i])
  }

  predicate CanGetObject(k: Setup, w: World, skip: bool) {
    w.tick.Busy? && w.tick.pc.CreateGet? && w.tick.pc.j < |w.tick.pc.keys| &&
    (var o := w.tick.pc.keys[w.tick.pc.j]; (o !in w.dest || Ours(k, w, o)) && (skip ==> o.Service?))
  }

  predicate CanPostObject(w: World) {
    w.tick.Busy? && w.tick.pc.CreatePost? && w.tick.pc.j < |w.tick.pc.keys| &&
    w.tick.pc.keys[w.tick.pc.j] !in w.dest
  }

  predicate CanEndCreating(w: World) { w.tick.Busy? && w.tick.pc.CreateGet? && w.tick.pc.j == |w.tick.pc.keys| }

  predicate CanStart(w: World, lost: bool) {
    At(w, Starting) &&
    (if Stopped(w.tick.m.origin) || w.tick.m.started then !lost
     else Workload in w.dest && w.dest[Workload].body.Shape?)
  }

  predicate CanSeeReady(w: World) { w.tick.Busy? && w.tick.pc == AskReady }

  predicate CanFault(w: World) { w.tick.Busy? && w.tick.pc != End }

  predicate CanStore(w: World) { w.tick.Busy? && w.tick.pc == End }

  /** The call that comes next, and the answers under which it comes to an effect; every
      other answer is a fault. */
  ghost predicate TickCan(k: Setup, w: World, a: TickStep) {
    match a
    case Reads => CanRead(w)
    case Faults(_) => CanFault(w)
    case Stores(_) => CanStore(w)
    case Joins => At(w, Joining)
    case CallsQuiesce(lost) => CanQuiesce(w, lost)
    case SeesPods => CanSeePods(w)
    case CallsBackup(made, lost) => CanCallBackup(k, w, made, lost)
    case SeesBackups(done, p) => CanSeeBackups(w, done, p)
    case Syncs(_) => At(w, Syncing)
    case BeginsRestore => At(w, Restoring)
    case GetsClaim(_) => CanGetClaim(k, w)
    case PostsClaim(_) => CanPostClaim(k, w)
    case SeesVolume => CanSeeVolume(k, w)
    case SeesVolumes(p) => CanSeeVolumes(k, w, p)
    case GetsDefinition(extras) => CanGetDefinition(w, extras)
    case GetsObject(skip) => CanGetObject(k, w, skip)
    case PostsObject(_) => CanPostObject(w)
    case EndsCreating => CanEndCreating(w)
    case CallsStart(lost) => CanStart(w, lost)
    case SeesReady(_) => CanSeeReady(w)
  }

  function Posted(k: Setup, w: World, o: Key, body: Body): World {
    w.(dest := w.dest[o := Obj(Some(k.id), body)])
  }

  ghost function TickDoes(k: Setup, w: World, a: TickStep): (w': World)
    requires TickCan(k, w, a)
    ensures w'.people == w.people && w'.released == w.released
    ensures !a.Stores? ==> Handles(w, w')
    ensures a.Stores? ==> w.tick.Busy? && w' == TickStores(w, w.tick.m.(updatedAt := a.now))
  {
    match a
    case Reads => Next(w, w.rec.value, Begin)
    case Faults(f) => Next(w, Faulted(w.tick.m, f), End)
    case Stores(now) => TickStores(w, w.tick.m.(updatedAt := now))
    case Joins => TickJoins(w)
    case CallsQuiesce(lost) => TickQuiesces(w, lost)
    case SeesPods => TickSeesPods(w)
    case CallsBackup(made, lost) => TickBacksUp(k, w, made, lost)
    case SeesBackups(done, p) => TickSeesBackups(w, done, p)
    case Syncs(visible) => TickSyncs(w, visible)
    case BeginsRestore => ToClaim(k, w, w.tick.m, 0)
    case GetsClaim(wait) => TickGetsClaim(k, w, wait)
    case PostsClaim(lost) => TickPostsClaim(k, w, lost)
    case SeesVolume => TickSeesVolume(k, w)
    case SeesVolumes(p) => TickSeesVolumes(w, p)
    case GetsDefinition(extras) => TickGetsDefinition(w, extras)
    case GetsObject(skip) => TickGetsObject(w, skip)
    case PostsObject(lost) => TickPostsObject(k, w, lost)
    case EndsCreating => TickEndsCreating(w)
    case CallsStart(lost) => TickStarts(w, lost)
    case SeesReady(ready) => TickSeesReady(w, ready)
  }

  /** The last thing of a pass, under the lock: stored only over a record that still runs. */
  function TickStores(w: World, m: Record): World {
    if w.rec.Some? && w.rec.value.status == Running && w.rec.value.updatedAt <= m.updatedAt then
      w.(tick := Idle, rec := Some(m), landed := w.landed || m.status == Succeeded)
    else
      w.(tick := Idle)
  }

  function TickJoins(w: World): (w': World)
    requires w.tick.Busy?
    ensures Handles(w, w') && Leaves(w, w') && PostsNothing(w'.tick.pc)
  {
    Ends(w, Advance(w.tick.m, Quiescing, 4))
  }

  function TickSeesPods(w: World): (w': World)
    requires w.tick.Busy?
    ensures Handles(w, w') && Leaves(w, w') && PostsNothing(w'.tick.pc)
  {
    if w.src.pods > 0 then Ends(w, Note(w.tick.m, 6)) else Ends(w, Advance(w.tick.m, BackingUp, 10))
  }

  function TickSeesBackups(w: World, done: set<Name>, progress: nat): (w': World)
    requires w.tick.Busy?
    ensures Handles(w, w') && Leaves(w, w') && PostsNothing(w'.tick.pc)
  {
    if |done| == |w.tick.m.claims| then Ends(w, Advance(w.tick.m, Syncing, 50))
    else Ends(w, Note(w.tick.m, progress))
  }

  function TickSyncs(w: World, visible: bool): (w': World)
    requires w.tick.Busy?
    ensures Handles(w, w') && Leaves(w, w') && PostsNothing(w'.tick.pc)
  {
    if visible && BackupsReadable(w, w.tick.m) then Ends(w, Advance(w.tick.m, Restoring, 55))
    else Ends(w, Note(w.tick.m, 52))
  }

  function TickSeesVolumes(w: World, progress: nat): (w': World)
    requires w.tick.Busy?
    ensures Handles(w, w') && Leaves(w, w') && PostsNothing(w'.tick.pc)
  {
    if AllRestored(w.tick.m) then Ends(w, Advance(w.tick.m, Creating, 86)) else Ends(w, Note(w.tick.m, progress))
  }

  function TickGetsDefinition(w: World, extras: seq<Key>): (w': World)
    requires w.tick.Busy?
    ensures Handles(w, w') && Leaves(w, w')
  {
    var origin := if w.src.origin.Some? then w.src.origin.value else RunStateOf(w.src.spec);
    Next(w, w.tick.m, CreateGet(extras + [Workload], 0, origin))
  }

  function TickGetsObject(w: World, skip: bool): (w': World)
    requires w.tick.Busy? && w.tick.pc.CreateGet? && w.tick.pc.j < |w.tick.pc.keys|
    ensures Handles(w, w') && Leaves(w, w')
  {
    var pc := w.tick.pc;
    if pc.keys[pc.j] in w.dest || skip then Next(w, w.tick.m, CreateGet(pc.keys, pc.j + 1, pc.origin))
    else Next(w, w.tick.m, CreatePost(pc.keys, pc.j, pc.origin))
  }

  function TickEndsCreating(w: World): (w': World)
    requires w.tick.Busy? && w.tick.pc.CreateGet?
    ensures Handles(w, w') && Leaves(w, w') && PostsNothing(w'.tick.pc)
  {
    Ends(w, Advance(w.tick.m.(origin := w.tick.pc.origin), Starting, 90))
  }

  function TickSeesReady(w: World, ready: bool): (w': World)
    requires w.tick.Busy?
    ensures Handles(w, w') && Leaves(w, w') && PostsNothing(w'.tick.pc)
  {
    if ready then Ends(w, Succeed(w.tick.m)) else Ends(w, Note(w.tick.m, 95))
  }

  function TickQuiesces(w: World, lost: bool): (w': World)
    requires w.tick.Busy?
    ensures Handles(w, w') && PostsNothing(w'.tick.pc) && w'.dest == w.dest
    ensures w.tick.m.quiesced ==> w'.src == w.src
  {
    if w.tick.m.quiesced then Next(w, w.tick.m, AskStatus)
    else
      var w' := w.(src := Quiesce(w.src));
      if lost then Lost(w', w.tick.m) else Next(w', w.tick.m.(quiesced := true), AskStatus)
  }

  ghost function TickBacksUp(k: Setup, w: World, made: map<Name, nat>, lost: bool): (w': World)
    requires RowsFit(k, w) && forall c :: c in made ==> c in w.src.data
    ensures Handles(w, w') && Leaves(w, w') && PostsNothing(w'.tick.pc)
  {
    if w.tick.m.backedUp then Next(w, w.tick.m, AskBackups)
    else
      var w' := w.(src := Backup(w.src, made), bucket := Stored(w.src, w.bucket, made));
      // Asked for all of them: one that could not be made fails the request.
      if lost || exists i :: 0 <= i < |k.claims| && k.claims[i] !in w'.src.backups then Lost(w', w.tick.m)
      else
        var m := w.tick.m.(claims := NameBackups(k, w.tick.m.claims, w'.src.backups), backedUp := true);
        Next(w', m, AskBackups)
  }

  function TickGetsClaim(k: Setup, w: World, wait: bool): (w': World)
    requires RowsFit(k, w) && w.tick.pc.RestoreGet? && w.tick.pc.i < |k.claims|
    ensures Handles(w, w') && Leaves(w, w')
  {
    var i, m := w.tick.pc.i, w.tick.m;
    if m.claims[i].created then ToClaim(k, w, m, i + 1)
    else if Pvc(k.claims[i]) in w.dest then
      ToClaim(k, w, m.(claims := m.claims[i := m.claims[i].(created := true)]), i + 1)
    else if wait then Ends(w, Note(m, 56))      // the disk's image is restored first
    else Next(w, m, RestorePost(i))
  }

  function ToClaim(k: Setup, w: World, m: Record, i: nat): World {
    Next(w, m, if i < |k.claims| then RestoreGet(i) else CheckRestored(0))
  }

  function TickPostsClaim(k: Setup, w: World, lost: bool): (w': World)
    requires RowsFit(k, w) && w.tick.pc.RestorePost? && w.tick.pc.i < |k.claims|
    requires w.tick.m.claims[w.tick.pc.i].backup.Some?
    ensures Handles(w, w') && w'.tick.pc != Begin && w'.src == w.src
  {
    var i, m := w.tick.pc.i, w.tick.m;
    var w' := Posted(k, w, Pvc(k.claims[i]), Volume(m.claims[i].backup.value, false));
    if lost then Lost(w', m) else ToClaim(k, w', m.(claims := m.claims[i := m.claims[i].(created := true)]), i + 1)
  }

  /** Whether a claim is bound and its volume needs no more restoring. */
  predicate Filled(w: World, c: Name) {
    Pvc(c) in w.dest && w.dest[Pvc(c)].body.Volume? && w.dest[Pvc(c)].body.restored
  }

  function TickSeesVolume(k: Setup, w: World): (w': World)
    requires RowsFit(k, w) && w.tick.pc.CheckRestored? && w.tick.pc.i < |k.claims|
    ensures Handles(w, w') && Leaves(w, w') && PostsNothing(w'.tick.pc)
  {
    var i, m := w.tick.pc.i, w.tick.m;
    Next(w, m.(claims := m.claims[i := m.claims[i].(restored := Filled(w, k.claims[i]))]), CheckRestored(i + 1))
  }

  function TickPostsObject(k: Setup, w: World, lost: bool): (w': World)
    requires w.tick.Busy? && w.tick.pc.CreatePost? && w.tick.pc.j < |w.tick.pc.keys|
    ensures Handles(w, w') && w'.tick.pc != Begin && w'.src == w.src
  {
    var pc := w.tick.pc;
    var o := pc.keys[pc.j];
    var w' := Posted(k, w, o, if o.Workload? then Shape(StoppedCopy(w.src.spec), false) else Plain);
    if lost then Lost(w', w.tick.m) else Next(w', w.tick.m, CreateGet(pc.keys, pc.j + 1, pc.origin))
  }

  function TickStarts(w: World, lost: bool): (w': World)
    requires w.tick.Busy?
    requires Stopped(w.tick.m.origin) || w.tick.m.started || (Workload in w.dest && w.dest[Workload].body.Shape?)
    ensures Handles(w, w') && Leaves(w, w') && PostsNothing(w'.tick.pc)
  {
    var m := w.tick.m;
    if Stopped(m.origin) then Ends(w, Succeed(m))
    else if m.started then Next(w, m, AskReady)
    else
      var o := w.dest[Workload];
      var w' := w.(dest := w.dest[Workload := o.(body := Shape(Patched(o.body.spec, m.origin), true))]);
      if lost then Lost(w', m) else Next(w', m.(started := true), AskReady)
  }

  // ------------------------------------------------------------- what people do

  /** `t` names a request in flight; `answered` is whether a listing answers, `pick` is the
      listed object deleted next.  A request dies where it stands: an exception, a lost
      reply or a crash. */
  datatype PersonStep =
    | Retries(now: nat)
    | Dismisses
    | BeginsAbandon(t: nat)
    | Abandons(t: nat, answered: bool, pick: Key, now: nat)
    | BeginsFinish(t: nat)
    | Removes(t: nat, volumes: bool)
    | StoresRemoved(t: nat, now: nat)
    | Dies(t: nat)
    | Crashes

  predicate IsAbandon(w: World, t: nat) { t in w.people && w.people[t].Abandon? }

  predicate PersonCan(k: Setup, w: World, a: PersonStep) {
    match a
    case Retries(_) => w.rec.Some? && w.rec.value.status == Failed
    case Dismisses => w.rec.Some? && w.rec.value.status in {Succeeded, Cancelled}
    case BeginsAbandon(t) => t !in w.people && w.rec.Some? && !w.rec.value.sourceRemoved
    case Abandons(t, _, pick, _) => IsAbandon(w, t) && AbandonCan(k, w, w.people[t].apc, pick)
    case BeginsFinish(t) =>
      t !in w.people && w.rec.Some? && w.rec.value.status == Succeeded && !w.rec.value.sourceRemoved
    case Removes(t, _) => t in w.people && w.people[t].Finish? && !w.people[t].removed && CanRemove(w.src)
    case StoresRemoved(t, _) => t in w.people && w.people[t].Finish? && w.people[t].removed
    case Dies(t) => t in w.people
    case Crashes => true
  }

  /** Calls that answer. A delete of what is gone already answers with an error. */
  predicate AbandonCan(k: Setup, w: World, pc: APc, pick: Key) {
    match pc
    case CallRelease => w.src.present
    case DeleteWorkload => Workload in w.dest
    case DeleteServices(left) => left == {} || (pick in left && pick in w.dest)
    case DeleteSecrets(left) => left == {} || (pick in left && pick in w.dest)
    case GetClaim(i) => i <= |k.claims|
    case DeleteClaim(i) => i < |k.claims| && Pvc(k.claims[i]) in w.dest
    case Finished => false
    case _ => true
  }

  /** People never add anything here, never stop the source, and never touch a tick. */
  predicate Undoes(w: World, w': World) {
    && w'.dest.Keys <= w.dest.Keys && (w.src.origin.None? ==> w'.src.origin.None?)
    && w'.landed == w.landed && (w'.tick.Busy? ==> w'.tick == w.tick)
  }

  function PersonDoes(k: Setup, w: World, a: PersonStep): (w': World)
    requires PersonCan(k, w, a)
    ensures Undoes(w, w')
  {
    match a
    case Retries(now) =>
      w.(rec := Some(w.rec.value.(status := Running, failures := 0, updatedAt := now)))
    case Dismisses => w.(rec := None)
    case BeginsAbandon(t) => w.(people := w.people[t := Abandon(w.rec.value, StoreCancelled, false, false)])
    case Abandons(t, answered, pick, now) => AbandonDoes(k, w, t, answered, pick, now)
    case BeginsFinish(t) => w.(people := w.people[t := Finish(w.rec.value, false)])
    case Removes(t, volumes) =>
      w.(src := Remove(w.src, volumes), people := w.people[t := w.people[t].(removed := true)])
    case StoresRemoved(t, now) =>
      w.(rec := Some(w.people[t].m.(sourceRemoved := true, updatedAt := now)), people := w.people - {t})
    case Dies(t) => w.(people := w.people - {t})
    case Crashes => w.(tick := Idle, people := map[])
  }

  function OursOf(k: Setup, w: World, services: bool): set<Key> {
    set o | o in w.dest && Ours(k, w, o) && (if services then o.Service? else o.Secret?)
  }

  /** What the next call of an `abandon` tells it. */
  function AbandonNext(k: Setup, w: World, th: Thread, answered: bool, pick: Key, now: nat): (th': Thread)
    requires th.Abandon? && AbandonCan(k, w, th.apc, pick)
    ensures th'.Abandon?
  {
    match th.apc
    case StoreCancelled => th.(m := th.m.(status := Cancelled, updatedAt := now), apc := CallRelease)
    case CallRelease => th.(apc := GetWorkload)
    case GetWorkload => th.(apc := if Ours(k, w, Workload) then DeleteWorkload else ListServices)
    case DeleteWorkload => th.(apc := ListServices)
    case ListServices =>
      th.(services := answered, apc := DeleteServices(if answered then OursOf(k, w, true) else {}))
    case DeleteServices(left) => th.(apc := if left == {} then ListSecrets else DeleteServices(left - {pick}))
    case ListSecrets =>
      th.(secrets := answered, apc := DeleteSecrets(if answered then OursOf(k, w, false) else {}))
    case DeleteSecrets(left) => th.(apc := if left == {} then GetClaim(0) else DeleteSecrets(left - {pick}))
    case GetClaim(i) =>
      th.(apc := if i == |k.claims| then StoreMessage
                 else if Ours(k, w, Pvc(k.claims[i])) then DeleteClaim(i) else GetClaim(i + 1))
    case DeleteClaim(i) => th.(apc := GetClaim(i + 1))
    case StoreMessage => th.(apc := Finished)
    case Finished => th
  }

  /** What it deletes here, if that is its next call. */
  function AbandonDeletes(k: Setup, w: World, apc: APc, pick: Key): set<Key>
    requires AbandonCan(k, w, apc, pick)
  {
    match apc
    case DeleteWorkload => {Workload}
    case DeleteServices(left) => if left == {} then {} else {pick}
    case DeleteSecrets(left) => if left == {} then {} else {pick}
    case DeleteClaim(i) => {Pvc(k.claims[i])}
    case _ => {}
  }

  function AbandonDoes(k: Setup, w: World, t: nat, answered: bool, pick: Key, now: nat): (w': World)
    requires IsAbandon(w, t) && AbandonCan(k, w, w.people[t].apc, pick)
    ensures Undoes(w, w')
  {
    var th := w.people[t];
    var th' := AbandonNext(k, w, th, answered, pick, now);
    w.(people := w.people[t := th'],
       dest := w.dest - AbandonDeletes(k, w, th.apc, pick),
       src := if th.apc.CallRelease? then Release(w.src) else w.src,
       released := w.released || th.apc.CallRelease?,
       rec := if th.apc.StoreCancelled? || th.apc.StoreMessage? then Some(th'.m) else w.rec)
  }

  // ------------------------------------------------------------- runs

  datatype Step = Cluster(c: ClusterStep) | Ticks(e: TickStep) | Person(p: PersonStep)

  ghost predicate Can(k: Setup, w: World, a: Step) {
    match a
    case Cluster(c) => ClusterCan(k, w, c)
    case Ticks(e) => TickCan(k, w, e)
    case Person(p) => PersonCan(k, w, p)
  }

  ghost function Does(k: Setup, w: World, a: Step): World
    requires Can(k, w, a)
  {
    match a
    case Cluster(c) => ClusterDoes(k, w, c)
    case Ticks(e) => TickDoes(k, w, e)
    case Person(p) => PersonDoes(k, w, p)
  }

  /** `ws` is the run that the steps `acts` make of `ws[0]`. */
  ghost predicate Follows(k: Setup, ws: seq<World>, acts: seq<Step>) {
    && |ws| == |acts| + 1
    && forall i :: 0 <= i < |acts| ==> Can(k, ws[i], acts[i]) && ws[i + 1] == Does(k, ws[i], acts[i])
  }

  ghost predicate Run(k: Setup, ws: seq<World>, acts: seq<Step>) {
    Follows(k, ws, acts) && Init(k, ws[0])
  }
}
