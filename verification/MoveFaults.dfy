/** What a move waits out, and what makes it fail. */
module MoveFaults {
  import opened Options
  import opened MoveSource
  import opened MoveProtocol
  import opened MoveSafety
  import opened MoveAnswers
  import MoveTicks
  import MovePeople

  /** The same of a tick that met a fault: a refusal ends the move, a far side that cannot be
      reached does so the 121st time, and anything else is waited out. */
  lemma FaultIsStored(k: Setup, ws: seq<World>, acts: seq<Step>, n: nat, m: nat, f: Fault, now: nat)
    requires Run(k, ws, acts) && TickWaits(acts, n, m)
    requires acts[n] == Ticks(Faults(f)) && acts[m] == Ticks(Stores(now))
    requires ws[m].rec.Some? && ws[m].rec.value.status == Running && ws[m].rec.value.updatedAt <= now
    ensures ws[n].tick.Busy? && ws[m + 1].rec.Some? && !ws[m + 1].landed
    ensures var before, after := ws[n].tick.m, ws[m + 1].rec.value;
      && after.phase == before.phase && after.progress == before.progress && after.claims == before.claims
      && (after.status == Failed <==> f == Refused || (f == Unreachable && before.failures >= 120))
      && (after.status == Running <==> after.status != Failed)
      && after.failures == if f == Refused then before.failures else before.failures + 1
  {
    hide Inv, Can, Does, Run, Init, Follows;
    RunFollows(k, ws, acts);
    MovePeople.RunStep(k, ws, acts, n);
    MovePeople.RunStep(k, ws, acts, m);
    TellsFault(k, ws[n], f);
    TickStands(k, ws, acts, n, m);
    StoresTold(k, ws[m], now);
    NotLandedYet(k, ws[m]);
  }

  lemma TellsFault(k: Setup, w: World, f: Fault)
    requires Inv(k, w) && Can(k, w, Ticks(Faults(f)))
    ensures w.tick.Busy? && w.tick.m.status == Running &&
      Does(k, w, Ticks(Faults(f))).tick == Busy(Faulted(w.tick.m, f), End)
  {
    MoveTicks.TickFacts(k, w);
    hide Inv, DestOk, SourceOk, RecOk;
  }

  lemma NotLandedYet(k: Setup, w: World)
    requires Inv(k, w) && w.rec.Some? && w.rec.value.status == Running
    ensures !w.landed
  {
    hide SourceOk, DestOk, TickOk, PeopleOk, LandedOk, RecOk;
  }

  /** How many ticks have begun before state n. */
  function Ticked(acts: seq<Step>, n: nat): nat
    requires n <= |acts|
  {
    if n == 0 then 0 else Ticked(acts, n - 1) + if acts[n - 1] == Ticks(Reads) then 1 else 0
  }

  ghost predicate WasRefused(acts: seq<Step>, n: nat) {
    exists l :: 0 <= l < n && l < |acts| && acts[l] == Ticks(Faults(Refused))
  }

  /** A record that has counted so many failures at most, and failed only for a reason. */
  predicate Counted(m: Record, most: nat, refused: bool) {
    m.failures <= most && (m.status == Failed ==> refused || m.failures > 120)
  }

  /** A tick counts at most one failure, in the step that ends it. */
  ghost predicate AllCounted(w: World, ticks: nat, refused: bool) {
    && (w.rec.Some? ==> Counted(w.rec.value, ticks, refused))
    && (w.tick.Busy? ==> ticks > 0 && Counted(w.tick.m, if w.tick.pc == End then ticks else ticks - 1, refused))
    && (forall t :: t in w.people ==> Counted(w.people[t].m, ticks, refused))
  }

  lemma TickCounted(k: Setup, w: World, e: TickStep, ticks: nat, refused: bool)
    requires Inv(k, w) && TickCan(k, w, e) && AllCounted(w, ticks, refused)
    ensures AllCounted(TickDoes(k, w, e), if e.Reads? then ticks + 1 else ticks, refused || e == Faults(Refused))
  {
    hide Inv, TickDoes, TickCan, TickStores, RecOk, PcOk;
    if e.Reads? {
      ReadIs(k, w);
    } else {
      MovesBusy(k, w, e);
      if e.Stores? {
        StoreIs(k, w, e.now);
      } else {
        MoveTicks.TickFacts(k, w);
        RecParts(k, w, w.tick.m);
        PhaseMoves(k, w, e);
        StandsBusy(k, w, e);
      }
    }
  }

  lemma StandsBusy(k: Setup, w: World, e: TickStep)
    requires TickCan(k, w, e) && w.tick.Busy? && !e.Reads? && !e.Stores?
    ensures w.tick.pc != End && TickDoes(k, w, e).rec == w.rec && TickDoes(k, w, e).people == w.people
  {
    hide TickDoes, FreshBackups, CanBackup, Ours;
  }

  lemma PersonCounted(k: Setup, w: World, p: PersonStep, ticks: nat, refused: bool)
    requires PersonCan(k, w, p) && AllCounted(w, ticks, refused)
    ensures AllCounted(PersonDoes(k, w, p), ticks, refused)
  {
    hide Undoes, AbandonDeletes, Release, Ours, OursOf, CanRemove;
    match p
    case Abandons(t, answered, pick, now) => AbandonCounts(k, w, t, answered, pick, now);
    case _ =>
  }

  lemma AbandonCounts(k: Setup, w: World, t: nat, answered: bool, pick: Key, now: nat)
    requires IsAbandon(w, t) && AbandonCan(k, w, w.people[t].apc, pick)
    ensures var m, m' := w.people[t].m, AbandonNext(k, w, w.people[t], answered, pick, now).m;
      m'.failures == m.failures && (m'.status == m.status || m'.status == Cancelled)
  {
    hide Ours, OursOf;
  }

  lemma ClusterCounted(k: Setup, w: World, c: ClusterStep, ticks: nat, refused: bool)
    requires ClusterCan(k, w, c) && AllCounted(w, ticks, refused)
    ensures AllCounted(ClusterDoes(k, w, c), ticks, refused)
  {
    var w' := ClusterDoes(k, w, c);
    assert w'.rec == w.rec && w'.tick == w.tick && w'.people == w.people;
    hide ClusterDoes, ClusterCan;
  }

  lemma {:induction false} RunCounted(k: Setup, ws: seq<World>, acts: seq<Step>, n: nat)
    requires Run(k, ws, acts) && n <= |acts|
    ensures n < |ws| && AllCounted(ws[n], Ticked(acts, n), WasRefused(acts, n))
  {
    hide Run, Init, TickCan, TickDoes, PersonCan, PersonDoes, ClusterCan, ClusterDoes, AllCounted, WasRefused;
    RunParts(k, ws, acts);
    if n == 0 {
      StartsCounted(k, ws[0], WasRefused(acts, 0));
    } else {
      RunCounted(k, ws, acts, n - 1);
      MovePeople.RunStep(k, ws, acts, n - 1);
      RefusedMore(acts, n);
      match acts[n - 1]
      case Cluster(c) => ClusterCounted(k, ws[n - 1], c, Ticked(acts, n - 1), WasRefused(acts, n - 1));
      case Ticks(e) => TickCounted(k, ws[n - 1], e, Ticked(acts, n - 1), WasRefused(acts, n - 1));
      case Person(p) => PersonCounted(k, ws[n - 1], p, Ticked(acts, n - 1), WasRefused(acts, n - 1));
    }
  }

  lemma RefusedMore(acts: seq<Step>, n: nat)
    requires 0 < n <= |acts|
    ensures WasRefused(acts, n) <==> WasRefused(acts, n - 1) || acts[n - 1] == Ticks(Faults(Refused))
  {
  }

  lemma StartsCounted(k: Setup, w: World, refused: bool)
    requires Init(k, w)
    ensures AllCounted(w, 0, refused)
  {
  }

  /** A move fails only when something refused it, or after more than 120 ticks of it: crashes,
      lost replies and outages that are shorter are waited out. */
  lemma {:induction false} FailsOnlyWhenRefused(k: Setup, ws: seq<World>, acts: seq<Step>, n: nat)
    requires Run(k, ws, acts) && n <= |acts| && n < |ws| && ws[n].rec.Some? && ws[n].rec.value.status == Failed
    ensures Ticked(acts, n) > 120 || exists l :: 0 <= l < n && acts[l] == Ticks(Faults(Refused))
  {
    hide Run;
    RunCounted(k, ws, acts, n);
  }
}
