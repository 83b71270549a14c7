/** The requests of a move as the source serves them, change by change. */
module MoveRequests {
  import opened Options
  import opened MoveSource

  /** `_claims_of`: the claims a workload mounts, each once, in the order it mounts them. */
  method ClaimsOf(mounted: seq<Option<Name>>) returns (ordered: seq<Name>)
    ensures forall i, j :: 0 <= i < j < |ordered| ==> ordered[i] != ordered[j]
    ensures forall c :: c in ordered <==> c != "" && Some(c) in mounted
    ensures InOrder(ordered, mounted)
  {
    ordered := [];
    var seen: set<Name> := {};
    ghost var from: seq<nat> := [];
    for i := 0 to |mounted|
      invariant forall i, j :: 0 <= i < j < |ordered| ==> ordered[i] != ordered[j]
      invariant forall c :: c in seen <==> c in ordered
      invariant forall c :: c in ordered <==> c != "" && Some(c) in mounted[..i]
      invariant PicksFirst(from, ordered, mounted, i)
    {
      var name := mounted[i];
      assert mounted[..i + 1] == mounted[..i] + [name];
      if name.Some? && name.value != "" && name.value !in seen {
        seen := seen + {name.value};
        ordered := ordered + [name.value];
        from := from + [i];
      }
    }
    assert mounted[..|mounted|] == mounted;
  }

  /** Claim j is first mounted by entry from[j] of the first n. */
  ghost predicate PicksFirst(from: seq<nat>, ordered: seq<Name>, mounted: seq<Option<Name>>, n: nat) {
    && n <= |mounted| && |from| == |ordered|
    && (forall j :: 0 <= j < |from| ==>
      from[j] < n && mounted[from[j]] == Some(ordered[j]) && Some(ordered[j]) !in mounted[..from[j]])
    && (forall j, k :: 0 <= j < k < |from| ==> from[j] < from[k])
  }

  ghost predicate InOrder(ordered: seq<Name>, mounted: seq<Option<Name>>) {
    exists from :: PicksFirst(from, ordered, mounted, |mounted|)
  }

  /** The source's cluster: the workload, and the backups in the shared bucket. */
  class Side {
    var s: Source
    var bucket: Bucket

    constructor (s: Source, bucket: Bucket)
      ensures this.s == s && this.bucket == bucket
    {
      this.s, this.bucket := s, bucket;
    }

    /** One merge patch: what it leaves out stays. */
    method Merge(origin: Option<Option<RunState>>, backups: Option<map<Name, nat>>, spec: Option<Spec>)
      modifies this`s
      ensures s == old(s).(
        origin := if origin.Some? then origin.value else old(s.origin),
        backups := if backups.Some? then backups.value else old(s.backups),
        spec := if spec.Some? then spec.value else old(s.spec))
    {
      if origin.Some? { s := s.(origin := origin.value); }
      if backups.Some? { s := s.(backups := backups.value); }
      if spec.Some? { s := s.(spec := spec.value); }
    }

    /** `quiesce`; a workload that is gone is an error. */
    method Quiesced() returns (ok: bool)
      modifies this`s
      ensures ok == old(s.present)
      ensures s == if ok then Quiesce(old(s)) else old(s)
    {
      if !s.present {
        return false;
      }
      var origin := if s.origin.Some? then s.origin.value else RunStateOf(s.spec);
      Merge(Some(Some(origin)), None, Some(Halted(s.spec)));
      return true;
    }

    /** `backup`: it can fail before any backup, and between a backup and its record. Each
        record it leaves is of a backup of the claim's content at rest. */
    method BackedUp(claims: seq<Name>) returns (ok: bool, ghost made: map<Name, nat>)
      requires forall i, j :: 0 <= i < j < |claims| ==> claims[i] != claims[j]
      requires forall c :: c in claims ==> c in s.data
      modifies this
      ensures ok ==> CanBackup(old(s)) && forall c :: c in claims ==> c in s.backups
      ensures !CanBackup(old(s)) ==> made == map[]
      ensures FreshBackups(old(s), old(bucket), claims, made) && s == Backup(old(s), made)
      ensures var stored := Stored(old(s), old(bucket), made);
        forall b :: b in stored ==> b in bucket && bucket[b] == stored[b]
    {
      hide FreshBackups, Holds, Stored, CanBackup;
      made := map[];
      ok := false;
      NoneMade(s, bucket, claims);
      Refused(s);
      if !s.present || s.origin.None? || s.pods > 0 {
        Recorded(s, bucket, bucket, made, claims);
        return;
      }
      var have := s.backups.Keys;
      ghost var start := s;
      for i := 0 to |claims|
        invariant s == Backup(start, made) && have == start.backups.Keys
        invariant forall c :: c in claims[..i] ==> c in s.backups
        invariant forall c :: c in made ==> c in claims[..i]
        invariant FreshBackups(start, old(bucket), claims, made)
        invariant Holds(start, old(bucket), bucket, made)
      {
        var claim := claims[i];
        if claim !in have {
          var fails, unrecorded := *, *;
          if fails {
            Recorded(start, old(bucket), bucket, made, claims);
            return;
          }
          var backup := Unused(bucket);
          Unread(claims, i, made);
          OneMore(start, old(bucket), bucket, made, claims, claim, backup);
          bucket := bucket[backup := s.data[claim]];
          if unrecorded {
            Recorded(start, old(bucket), bucket, made, claims);
            return;
          }
          assert start.backups + made[claim := backup] == (start.backups + made)[claim := backup];
          made := made[claim := backup];
          Merge(None, Some(s.backups[claim := backup]), None);
        }
      }
      ok := true;
      Recorded(start, old(bucket), bucket, made, claims);
    }

    /** `release`. */
    method Released() returns (ok: bool)
      modifies this`s
      ensures ok == old(s.present)
      ensures s == if ok then Release(old(s)) else old(s)
    {
      if !s.present {
        return false;
      }
      if s.origin.Some? {
        Merge(Some(None), Some(map[]), Some(Patched(s.spec, s.origin.value)));
      }
      return true;
    }

    /** `remove`, once it is not refused. */
    method Removed(volumes: bool) returns (ok: bool)
      modifies this`s
      ensures ok == CanRemove(old(s))
      ensures s == if ok then Remove(old(s), volumes) else old(s)
    {
      if !s.present || s.origin.None? || s.pods > 0 {
        return false;
      }
      s := s.(present := false);
      if volumes {
        s := s.(volumes := false);
      }
      return true;
    }
  }

  /** The bucket has every earlier backup and all that were made, of the content at rest. */
  ghost predicate Holds(start: Source, before: Bucket, bucket: Bucket, made: map<Name, nat>) {
    && (forall b :: b in before ==> b in bucket && bucket[b] == before[b])
    && (forall c :: c in made ==> c in start.data && made[c] in bucket && bucket[made[c]] == start.data[c])
  }

  lemma Recorded(start: Source, before: Bucket, bucket: Bucket, made: map<Name, nat>, claims: seq<Name>)
    requires Holds(start, before, bucket, made) && FreshBackups(start, before, claims, made)
    ensures var stored := Stored(start, before, made); forall b :: b in stored ==> b in bucket && bucket[b] == stored[b]
  {
    var stored := Stored(start, before, made);
    forall b | b in stored ensures b in bucket && bucket[b] == stored[b] {
      if b !in before {
        var c :| c in made && made[c] == b && stored[b] == start.data[c];
      }
    }
  }

  lemma NoneMade(s: Source, bucket: Bucket, claims: seq<Name>)
    ensures FreshBackups(s, bucket, claims, map[]) && Holds(s, bucket, bucket, map[]) && Backup(s, map[]) == s
  {
    assert s.backups + map[] == s.backups;
  }

  lemma Refused(s: Source)
    ensures CanBackup(s) <==> s.present && s.origin.Some? && s.pods == 0
  {
  }

  lemma Unread(claims: seq<Name>, i: nat, made: map<Name, nat>)
    requires i < |claims| && (forall j, k :: 0 <= j < k < |claims| ==> claims[j] != claims[k])
    requires forall c :: c in made ==> c in claims[..i]
    ensures claims[i] !in made && claims[i] in claims && claims[..i + 1] == claims[..i] + [claims[i]]
  {
  }

  /** A new backup of a claim that has none. */
  lemma OneMore(start: Source, before: Bucket, bucket: Bucket, made: map<Name, nat>, claims: seq<Name>, c: Name, b: nat)
    requires FreshBackups(start, before, claims, made) && Holds(start, before, bucket, made)
    requires c in claims && c in start.data && c !in start.backups && c !in made && b !in bucket
    ensures FreshBackups(start, before, claims, made[c := b])
    ensures Holds(start, before, bucket[b := start.data[c]], made)
    ensures Holds(start, before, bucket[b := start.data[c]], made[c := b])
  {
  }

  /** A name no backup has. */
  method Unused(bucket: Bucket) returns (b: nat)
    ensures b !in bucket
  {
    b := 0;
    var left := bucket.Keys;
    while b in bucket
      invariant forall n :: n in left <==> n in bucket && n >= b
      decreases left
    {
      left := left - {b};
      b := b + 1;
    }
  }
}
