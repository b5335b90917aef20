/** The GGUF attestation cache with single-flight hashing (gateway/integrity.py).  The file behind a path
  has a history; a stat, a read or a hash happens at instants of that history. */
module Attestation {
  type Path(==, !new)
  type Digest(==, !new)
  type Ident(==, !new)
  type Byte = b: nat | b < 256
  type CallerId = nat
  type FlightId = nat
  type LoopId = nat

  datatype Option<+T> = None | Some(value: T)

  datatype FileAt = Missing | File(ident: Ident, content: seq<Byte>)

  /** What is at a path at an instant, and the hash function. */
  datatype Env = Env(at: (Path, nat) -> FileAt, hash: seq<Byte> -> Digest)

  /** The file identity (device, inode, size, mtime) is taken to witness content: if it is the same at two
      instants, the file was the same all along. */
  ghost predicate Stable(e: Env) {
    forall p, s, t, u :: s <= t <= u && e.at(p, s).File? && e.at(p, u).File? && e.at(p, s).ident == e.at(p, u).ident ==>
      e.at(p, t) == e.at(p, s)
  }

  datatype Key = Key(path: Path, declared: Digest)

  const CHUNK := 1048576
  const CACHE_MAX := 512

  // ---------------------------------------------------------------- reading a file in chunks

  function Slice(content: seq<Byte>, from: nat, size: nat): seq<Byte> {
    if from >= |content| then [] else if from + size <= |content| then content[from..from + size] else content[from..]
  }

  function Concat(chunks: seq<seq<Byte>>): seq<Byte> {
    if chunks == [] then [] else Concat(chunks[..|chunks| - 1]) + chunks[|chunks| - 1]
  }

  /** chunks are the successive reads, at these instants, until an empty one. */
  ghost predicate Reads(e: Env, p: Path, times: seq<nat>, chunks: seq<seq<Byte>>) {
    && |times| == |chunks| > 0 && chunks[|chunks| - 1] == []
    && (forall i, j :: 0 <= i < j < |times| ==> times[i] <= times[j])
    && (forall i :: 0 <= i < |chunks| - 1 ==> chunks[i] != [])
    && (forall i :: 0 <= i < |chunks| ==> ReadsAt(e, p, times[i], chunks[..i], chunks[i]))
  }

  ghost predicate ReadsAt(e: Env, p: Path, t: nat, before: seq<seq<Byte>>, chunk: seq<Byte>) {
    e.at(p, t).File? && chunk == Slice(e.at(p, t).content, |Concat(before)|, CHUNK)
  }

  /** All chunks are read from the same content. */
  ghost predicate Sliced(c: seq<Byte>, chunks: seq<seq<Byte>>) {
    forall i :: 0 <= i < |chunks| ==> chunks[i] == Slice(c, |Concat(chunks[..i])|, CHUNK)
  }

  lemma SlicedTake(c: seq<Byte>, chunks: seq<seq<Byte>>, n: nat)
    requires Sliced(c, chunks) && n <= |chunks|
    ensures Sliced(c, chunks[..n])
  {
    forall i | 0 <= i < n ensures chunks[..n][i] == Slice(c, |Concat(chunks[..n][..i])|, CHUNK) {
      assert chunks[..n][..i] == chunks[..i];
    }
  }

  lemma {:induction false} ReadsPrefix(c: seq<Byte>, chunks: seq<seq<Byte>>)
    requires Sliced(c, chunks)
    ensures |Concat(chunks)| <= |c| && Concat(chunks) == c[..|Concat(chunks)|]
  {
    if chunks != [] {
      var n := |chunks| - 1;
      SlicedTake(c, chunks, n);
      ReadsPrefix(c, chunks[..n]);
      assert chunks[n] == Slice(c, |Concat(chunks[..n])|, CHUNK);
      SliceExtends(c, |Concat(chunks[..n])|);
      hide Sliced, Slice;
    }
  }

  lemma SliceExtends(c: seq<Byte>, from: nat)
    requires from <= |c|
    ensures from + |Slice(c, from, CHUNK)| <= |c| && c[..from] + Slice(c, from, CHUNK) == c[..from + |Slice(c, from, CHUNK)|]
    ensures Slice(c, from, CHUNK) == [] ==> from == |c|
  {
  }

  lemma LastIsEmpty(c: seq<Byte>, chunks: seq<seq<Byte>>)
    requires Sliced(c, chunks) && |chunks| > 0 && chunks[|chunks| - 1] == []
    ensures Concat(chunks) == c
  {
    var n := |chunks| - 1;
    SlicedTake(c, chunks, n);
    ReadsPrefix(c, chunks[..n]);
    assert chunks[n] == Slice(c, |Concat(chunks[..n])|, CHUNK);
    SliceExtends(c, |Concat(chunks[..n])|);
    hide Sliced, Slice;
    assert Concat(chunks) == Concat(chunks[..n]) + [];
  }

  /** However many reads it takes, an unchanged file is read completely and in order. */
  lemma ReadsAll(e: Env, p: Path, times: seq<nat>, chunks: seq<seq<Byte>>, c: seq<Byte>)
    requires Reads(e, p, times, chunks) && forall i :: 0 <= i < |times| ==> e.at(p, times[i]).File? && e.at(p, times[i]).content == c
    ensures Concat(chunks) == c
  {
    forall i | 0 <= i < |chunks| ensures chunks[i] == Slice(c, |Concat(chunks[..i])|, CHUNK) {
      assert ReadsAt(e, p, times[i], chunks[..i], chunks[i]);
    }
    hide Reads;
    LastIsEmpty(c, chunks);
  }

  /** The loop over the chunks of a file that does not change. */
  method ReadInChunks(content: seq<Byte>) returns (chunks: seq<seq<Byte>>)
    ensures Concat(chunks) == content
    ensures |chunks| > 0 && chunks[|chunks| - 1] == [] && forall i :: 0 <= i < |chunks| - 1 ==> 0 < |chunks[i]| <= CHUNK
  {
    chunks := [];
    var offset := 0;
    var chunk := Slice(content, 0, CHUNK);
    while chunk != []
      invariant offset <= |content| && Concat(chunks) == content[..offset]
      invariant chunk == Slice(content, offset, CHUNK)
      invariant forall i :: 0 <= i < |chunks| ==> 0 < |chunks[i]| <= CHUNK
      decreases |content| - offset
    {
      assert (chunks + [chunk])[..|chunks|] == chunks;
      chunks := chunks + [chunk];
      offset := offset + |chunk|;
      chunk := Slice(content, offset, CHUNK);
    }
    assert (chunks + [[]])[..|chunks|] == chunks;
    chunks := chunks + [[]];
  }

  // ---------------------------------------------------------------- the tables

  /** What the worker thread brings back: stat at before, reads, stat at after. */
  datatype Outcome =
    | Unreadable | Mutated | WorkerCancelled
    | Hashed(before: nat, times: seq<nat>, chunks: seq<seq<Byte>>, after: nat)

  datatype Flight = Flight(key: Key, loop: LoopId, outcome: Option<Outcome>, cleaned: bool)

  datatype Caller = Statted(key: Key, loop: LoopId, at: nat) | Missed(key: Key, loop: LoopId) | Joined(flight: FlightId) | HitAt(key: Key, at: nat)

  /** attested is an ordered dictionary. */
  datatype Tables = Tables(
    attested: seq<(Key, Ident)>, inflight: map<Key, FlightId>, flights: map<FlightId, Flight>, callers: map<CallerId, Caller>)

  function Cached(attested: seq<(Key, Ident)>, k: Key): Option<Ident> {
    if attested == [] then None else if attested[0].0 == k then Some(attested[0].1) else Cached(attested[1..], k)
  }

  /** dict[k] = i: a known key keeps its place. */
  function Put(attested: seq<(Key, Ident)>, k: Key, i: Ident): seq<(Key, Ident)> {
    if attested == [] then [(k, i)]
    else if attested[0].0 == k then [(k, i)] + attested[1..]
    else [attested[0]] + Put(attested[1..], k, i)
  }

  /** ... and the oldest entry goes when there are too many. */
  function Insert(attested: seq<(Key, Ident)>, k: Key, i: Ident): seq<(Key, Ident)> {
    var a := Put(attested, k, i);
    if |a| > CACHE_MAX then a[1..] else a
  }

  /** The worker read the file with one identity before and after. */
  ghost predicate Honest(e: Env, k: Key, o: Outcome, now: nat) {
    o.Hashed? ==>
      && o.before <= o.after <= now && Reads(e, k.path, o.times, o.chunks)
      && (forall i :: 0 <= i < |o.times| ==> o.before <= o.times[i] <= o.after)
      && e.at(k.path, o.before).File? && e.at(k.path, o.after).File?
      && e.at(k.path, o.before).ident == e.at(k.path, o.after).ident
  }

  /** The digest that was computed is the declared one. */
  predicate Conforms(e: Env, k: Key, o: Outcome) { o.Hashed? && e.hash(Concat(o.chunks)) == k.declared }

  datatype Step =
    | Stat(c: CallerId, k: Key, loop: LoopId, at: nat)
    | Check(c: CallerId)
    | Join(c: CallerId, f: FlightId)
    | Land(f: FlightId, o: Outcome)
    | Clean(f: FlightId)
    | Leave(c: CallerId)

  ghost predicate Enabled(t: Tables, e: Env, now: nat, st: Step) {
    match st
    case Stat(c, k, _, at) => c !in t.callers && at <= now && e.at(k.path, at).File?
    case Check(c) => c in t.callers && t.callers[c].Statted?
    case Join(c, f) => c in t.callers && t.callers[c].Missed? && f !in t.flights
    case Land(f, o) => f in t.flights && t.flights[f].outcome.None? && Honest(e, t.flights[f].key, o, now)
    case Clean(f) => f in t.flights && t.flights[f].outcome.Some? && !t.flights[f].cleaned
    case Leave(c) => c in t.callers
  }

  function DoCheck(t: Tables, e: Env, c: CallerId): Tables
    requires c in t.callers && t.callers[c].Statted?
  {
    var s := t.callers[c];
    if e.at(s.key.path, s.at).File? && Cached(t.attested, s.key) == Some(e.at(s.key.path, s.at).ident)
    then t.(callers := t.callers[c := HitAt(s.key, s.at)])
    else t.(callers := t.callers[c := Missed(s.key, s.loop)])
  }

  /** The entry in flight, if it belongs to the caller's own event loop. */
  predicate Joinable(t: Tables, k: Key, loop: LoopId) {
    k in t.inflight && t.inflight[k] in t.flights && t.flights[t.inflight[k]].loop == loop
  }

  function DoJoin(t: Tables, c: CallerId, f: FlightId): Tables
    requires c in t.callers && t.callers[c].Missed?
  {
    var m := t.callers[c];
    if Joinable(t, m.key, m.loop) then t.(callers := t.callers[c := Joined(t.inflight[m.key])])
    else
      t.(callers := t.callers[c := Joined(f)], inflight := t.inflight[m.key := f],
         flights := t.flights[f := Flight(m.key, m.loop, None, false)])
  }

  function DoLand(t: Tables, e: Env, f: FlightId, o: Outcome): Tables
    requires f in t.flights
  {
    var k := t.flights[f].key;
    var t1 := t.(flights := t.flights[f := t.flights[f].(outcome := Some(o))]);
    if Conforms(e, k, o) && e.at(k.path, o.after).File? then t1.(attested := Insert(t.attested, k, e.at(k.path, o.after).ident))
    else t1
  }

  function DoClean(t: Tables, f: FlightId): Tables
    requires f in t.flights
  {
    var k := t.flights[f].key;
    t.(flights := t.flights[f := t.flights[f].(cleaned := true)],
       inflight := if k in t.inflight && t.inflight[k] == f then t.inflight - {k} else t.inflight)
  }

  ghost function Apply(t: Tables, e: Env, now: nat, st: Step): Tables
    requires Enabled(t, e, now, st)
  {
    match st
    case Stat(c, k, loop, at) => t.(callers := t.callers[c := Statted(k, loop, at)])
    case Check(c) => DoCheck(t, e, c)
    case Join(c, f) => DoJoin(t, c, f)
    case Land(f, o) => DoLand(t, e, f, o)
    case Clean(f) => DoClean(t, f)
    case Leave(c) => t.(callers := t.callers - {c})
  }

  // ---------------------------------------------------------------- what every step keeps

  /** At some past instant the file had this identity and hashed to the declared digest. */
  ghost predicate Attested(e: Env, k: Key, i: Ident, now: nat) {
    exists t: nat :: t <= now && AttestedAt(e, k, i, t)
  }

  ghost predicate AttestedAt(e: Env, k: Key, i: Ident, t: nat) {
    e.at(k.path, t).File? && e.at(k.path, t).ident == i && e.hash(e.at(k.path, t).content) == k.declared
  }

  /** The file hashes to the declared digest at t. */
  ghost predicate GoodAt(e: Env, k: Key, t: nat) { e.at(k.path, t).File? && e.hash(e.at(k.path, t).content) == k.declared }

  ghost predicate CacheInv(e: Env, attested: seq<(Key, Ident)>, now: nat) {
    && |attested| <= CACHE_MAX
    && forall j :: 0 <= j < |attested| ==> Attested(e, attested[j].0, attested[j].1, now)
  }

  ghost predicate CallerInv(e: Env, c: Caller, now: nat) {
    match c
    case Statted(k, _, at) => at <= now && e.at(k.path, at).File?
    case HitAt(k, at) => GoodAt(e, k, at)
    case _ => true
  }

  ghost predicate CallersInv(e: Env, callers: map<CallerId, Caller>, now: nat) {
    forall c :: c in callers ==> CallerInv(e, callers[c], now)
  }

  ghost predicate FlightsInv(e: Env, flights: map<FlightId, Flight>, now: nat) {
    forall f :: f in flights && flights[f].outcome.Some? ==> Honest(e, flights[f].key, flights[f].outcome.value, now)
  }

  /** What is in flight is a flight of that key that has not been cleaned up; clean-up comes after landing. */
  ghost predicate TableInv(inflight: map<Key, FlightId>, flights: map<FlightId, Flight>) {
    && (forall k :: k in inflight ==> inflight[k] in flights && flights[inflight[k]].key == k && !flights[inflight[k]].cleaned)
    && (forall f :: f in flights && flights[f].cleaned ==> flights[f].outcome.Some?)
  }

  ghost predicate Inv(t: Tables, e: Env, now: nat) {
    && CacheInv(e, t.attested, now) && CallersInv(e, t.callers, now) && FlightsInv(e, t.flights, now)
    && TableInv(t.inflight, t.flights)
  }

  /** A conforming flight hashed what the file was, at every instant of the flight. */
  lemma FlightIsSound(e: Env, k: Key, o: Outcome, now: nat, t: nat)
    requires Stable(e) && Honest(e, k, o, now) && Conforms(e, k, o) && o.before <= t <= o.after
    ensures GoodAt(e, k, t) && AttestedAt(e, k, e.at(k.path, o.after).ident, t)
  {
    var c := e.at(k.path, o.before).content;
    forall i | 0 <= i < |o.times| ensures e.at(k.path, o.times[i]) == e.at(k.path, o.before) {}
    ReadsAll(e, k.path, o.times, o.chunks, c);
    assert e.at(k.path, t) == e.at(k.path, o.before);
  }

  lemma {:induction false} CachedIsIn(attested: seq<(Key, Ident)>, k: Key)
    requires Cached(attested, k).Some?
    ensures exists j :: 0 <= j < |attested| && attested[j] == (k, Cached(attested, k).value)
  {
    if attested[0].0 != k {
      CachedIsIn(attested[1..], k);
      var j :| 0 <= j < |attested| - 1 && attested[1..][j] == (k, Cached(attested, k).value);
      assert attested[j + 1] == attested[1..][j];
    } else {
      assert attested[0] == (k, Cached(attested, k).value);
    }
  }

  lemma {:induction false} PutEntries(attested: seq<(Key, Ident)>, k: Key, i: Ident)
    ensures |Put(attested, k, i)| <= |attested| + 1
    ensures forall j :: 0 <= j < |Put(attested, k, i)| ==> Put(attested, k, i)[j] == (k, i) || Put(attested, k, i)[j] in attested
    ensures Cached(Put(attested, k, i), k) == Some(i)
    ensures forall l :: l != k ==> Cached(Put(attested, k, i), l) == Cached(attested, l)
  {
    if attested != [] && attested[0].0 != k {
      PutEntries(attested[1..], k, i);
      var rest := Put(attested[1..], k, i);
      assert forall j :: 0 < j < |Put(attested, k, i)| ==> Put(attested, k, i)[j] == rest[j - 1];
    }
  }

  /** Where the entry goes: in the place of the key, or at the end. */
  lemma {:induction false} PutAt(attested: seq<(Key, Ident)>, k: Key, i: Ident, j: nat)
    requires j <= |attested| && (forall l :: 0 <= l < j ==> attested[l].0 != k) && (j < |attested| ==> attested[j].0 == k)
    ensures Put(attested, k, i) == attested[..j] + if j < |attested| then [(k, i)] + attested[j + 1..] else [(k, i)]
  {
    if j > 0 {
      PutAt(attested[1..], k, i, j - 1);
      assert attested[..j] == [attested[0]] + attested[1..][..j - 1];
      if j < |attested| { assert attested[j + 1..] == attested[1..][j..]; }
    }
  }

  /** A cache hit is sound at the caller's own stat. */
  lemma HitIsSound(e: Env, attested: seq<(Key, Ident)>, k: Key, at: nat, now: nat)
    requires Stable(e) && CacheInv(e, attested, now) && e.at(k.path, at).File?
    requires Cached(attested, k) == Some(e.at(k.path, at).ident)
    ensures GoodAt(e, k, at)
  {
    CachedIsIn(attested, k);
    var j :| 0 <= j < |attested| && attested[j] == (k, Cached(attested, k).value);
    var t: nat :| t <= now && AttestedAt(e, attested[j].0, attested[j].1, t);
    assert e.at(k.path, at) == e.at(k.path, t);
  }

  lemma InsertKeeps(e: Env, attested: seq<(Key, Ident)>, k: Key, i: Ident, now: nat)
    requires CacheInv(e, attested, now) && Attested(e, k, i, now)
    ensures CacheInv(e, Insert(attested, k, i), now)
  {
    PutEntries(attested, k, i);
    var a := Put(attested, k, i);
    forall j | 0 <= j < |a| ensures Attested(e, a[j].0, a[j].1, now) {
      if a[j] != (k, i) { var h :| 0 <= h < |attested| && attested[h] == a[j]; }
    }
  }

  lemma CallersKeep(e: Env, callers: map<CallerId, Caller>, now: nat, c: CallerId, x: Caller)
    requires CallersInv(e, callers, now) && CallerInv(e, x, now)
    ensures CallersInv(e, callers[c := x], now) && CallersInv(e, callers - {c}, now)
  {
    hide CallerInv;
  }

  lemma FlightsKeep(e: Env, flights: map<FlightId, Flight>, now: nat, f: FlightId, x: Flight)
    requires FlightsInv(e, flights, now) && (x.outcome.Some? ==> Honest(e, x.key, x.outcome.value, now))
    ensures FlightsInv(e, flights[f := x], now)
  {
    hide Honest;
  }

  lemma CheckKeeps(t: Tables, e: Env, now: nat, c: CallerId)
    requires Stable(e) && Inv(t, e, now) && c in t.callers && t.callers[c].Statted?
    ensures Inv(DoCheck(t, e, c), e, now)
  {
    var s := t.callers[c];
    assert CallerInv(e, s, now);
    var hit := Cached(t.attested, s.key) == Some(e.at(s.key.path, s.at).ident);
    if hit { HitIsSound(e, t.attested, s.key, s.at, now); }
    var x := if hit then HitAt(s.key, s.at) else Missed(s.key, s.loop);
    CallersKeep(e, t.callers, now, c, x);
    hide CacheInv, Stable, CallersInv, FlightsInv, TableInv;
  }

  lemma JoinKeeps(t: Tables, e: Env, now: nat, c: CallerId, f: FlightId)
    requires Inv(t, e, now) && c in t.callers && t.callers[c].Missed? && f !in t.flights
    ensures Inv(DoJoin(t, c, f), e, now)
  {
    var m := t.callers[c];
    var x := Flight(m.key, m.loop, None, false);
    CallersKeep(e, t.callers, now, c, if Joinable(t, m.key, m.loop) then Joined(t.inflight[m.key]) else Joined(f));
    FlightsKeep(e, t.flights, now, f, x);
    assert TableInv(t.inflight[m.key := f], t.flights[f := x]);
    hide CacheInv, CallersInv, FlightsInv, TableInv;
  }

  lemma LandKeeps(t: Tables, e: Env, now: nat, f: FlightId, o: Outcome)
    requires Stable(e) && Inv(t, e, now) && f in t.flights && t.flights[f].outcome.None? && Honest(e, t.flights[f].key, o, now)
    ensures Inv(DoLand(t, e, f, o), e, now)
  {
    var k := t.flights[f].key;
    if Conforms(e, k, o) {
      FlightIsSound(e, k, o, now, o.after);
      assert Attested(e, k, e.at(k.path, o.after).ident, now);
      InsertKeeps(e, t.attested, k, e.at(k.path, o.after).ident, now);
    }
    var x := t.flights[f].(outcome := Some(o));
    FlightsKeep(e, t.flights, now, f, x);
    assert TableInv(t.inflight, t.flights[f := x]);
    hide CacheInv, Stable, CallersInv, FlightsInv, TableInv, Insert;
  }

  lemma CleanKeeps(t: Tables, e: Env, now: nat, f: FlightId)
    requires Inv(t, e, now) && f in t.flights && t.flights[f].outcome.Some?
    ensures Inv(DoClean(t, f), e, now)
  {
    var x := t.flights[f].(cleaned := true);
    assert Honest(e, x.key, x.outcome.value, now);
    FlightsKeep(e, t.flights, now, f, x);
    assert TableInv(DoClean(t, f).inflight, t.flights[f := x]);
    hide CacheInv, CallersInv, FlightsInv, TableInv;
  }

  lemma StepKeepsInv(t: Tables, e: Env, now: nat, st: Step)
    requires Stable(e) && Inv(t, e, now) && Enabled(t, e, now, st)
    ensures Inv(Apply(t, e, now, st), e, now)
  {
    hide CacheInv, Honest, Stable, CallersInv, FlightsInv, TableInv, DoCheck, DoJoin, DoLand, DoClean;
    match st
    case Stat(c, k, loop, at) => CallersKeep(e, t.callers, now, c, Statted(k, loop, at));
    case Check(c) => CheckKeeps(t, e, now, c);
    case Join(c, f) => JoinKeeps(t, e, now, c, f);
    case Land(f, o) => LandKeeps(t, e, now, f, o);
    case Clean(f) => CleanKeeps(t, e, now, f);
    case Leave(c) => CallersKeep(e, t.callers, now, c, Joined(0));
  }

  lemma TimePasses(t: Tables, e: Env, now: nat, later: nat)
    requires Inv(t, e, now) && now <= later
    ensures Inv(t, e, later)
  {
    forall j | 0 <= j < |t.attested| ensures Attested(e, t.attested[j].0, t.attested[j].1, later) {
      assert Attested(e, t.attested[j].0, t.attested[j].1, now);
    }
    forall c | c in t.callers ensures CallerInv(e, t.callers[c], later) { assert CallerInv(e, t.callers[c], now); }
    forall f | f in t.flights && t.flights[f].outcome.Some?
      ensures Honest(e, t.flights[f].key, t.flights[f].outcome.value, later)
    {
      assert Honest(e, t.flights[f].key, t.flights[f].outcome.value, now);
    }
  }

  const EMPTY := Tables([], map[], map[], map[])

  /** A run: the state after each step, and the instant at which the step happens. */
  ghost predicate Run(e: Env, trace: seq<Tables>, steps: seq<Step>, times: seq<nat>) {
    && |trace| == |steps| + 1 && |times| == |steps| && trace[0] == EMPTY
    && (forall i, j :: 0 <= i < j < |times| ==> times[i] <= times[j])
    && forall i :: 0 <= i < |steps| ==>
         Enabled(trace[i], e, times[i], steps[i]) && trace[i + 1] == Apply(trace[i], e, times[i], steps[i])
  }

  lemma {:induction false} RunKeepsInv(e: Env, trace: seq<Tables>, steps: seq<Step>, times: seq<nat>, k: nat, now: nat)
    requires Stable(e) && Run(e, trace, steps, times) && k <= |steps| && (k > 0 ==> times[k - 1] <= now)
    ensures Inv(trace[k], e, now)
  {
    hide Inv, Apply, Enabled, Stable;
    if k == 0 {
      EmptyInv(e, now);
    } else {
      RunKeepsInv(e, trace, steps, times, k - 1, times[k - 1]);
      StepKeepsInv(trace[k - 1], e, times[k - 1], steps[k - 1]);
      assert trace[k - 1 + 1] == Apply(trace[k - 1], e, times[k - 1], steps[k - 1]);
      TimePasses(trace[k], e, times[k - 1], now);
    }
  }

  lemma EmptyInv(e: Env, now: nat)
    ensures Inv(EMPTY, e, now)
  {
  }

  // ---------------------------------------------------------------- soundness

  /** In every run: a caller answered from the cache had, at its own stat, a file that hashes to the declared
      digest; a caller answered by a flight had one at every instant of that flight; the cache is bounded. */
  lemma {:induction false} AttestationIsSound(e: Env, trace: seq<Tables>, steps: seq<Step>, times: seq<nat>, k: nat, now: nat, c: CallerId)
    requires Stable(e) && Run(e, trace, steps, times) && k <= |steps| && (k > 0 ==> times[k - 1] <= now) && c in trace[k].callers
    ensures |trace[k].attested| <= CACHE_MAX
    ensures trace[k].callers[c].HitAt? ==> GoodAt(e, trace[k].callers[c].key, trace[k].callers[c].at)
    ensures trace[k].callers[c].Joined? ==>
              var f := trace[k].callers[c].flight;
              f in trace[k].flights && trace[k].flights[f].outcome.Some?
              && Conforms(e, trace[k].flights[f].key, trace[k].flights[f].outcome.value) ==>
                var o := trace[k].flights[f].outcome.value;
                o.before <= o.after <= now && forall t :: o.before <= t <= o.after ==> GoodAt(e, trace[k].flights[f].key, t)
  {
    RunKeepsInv(e, trace, steps, times, k, now);
    assert CallerInv(e, trace[k].callers[c], now);
    if trace[k].callers[c].Joined? {
      var f := trace[k].callers[c].flight;
      if f in trace[k].flights && trace[k].flights[f].outcome.Some?
         && Conforms(e, trace[k].flights[f].key, trace[k].flights[f].outcome.value) {
        var o := trace[k].flights[f].outcome.value;
        assert Honest(e, trace[k].flights[f].key, o, now);
        forall t: nat | o.before <= t <= o.after ensures GoodAt(e, trace[k].flights[f].key, t) {
          FlightIsSound(e, trace[k].flights[f].key, o, now, t);
        }
      }
    }
  }

  /** Only a conforming flight changes the cache, when it lands. */
  lemma OnlyConformingFlightsEnter(t: Tables, e: Env, now: nat, st: Step)
    requires Enabled(t, e, now, st)
    ensures Apply(t, e, now, st).attested != t.attested ==> st.Land? && Conforms(e, t.flights[st.f].key, st.o)
  {
    hide Honest, Put, Insert;
  }

  /** j is where k stands in the cache; |attested| if it does not. */
  predicate IsPlace(attested: seq<(Key, Ident)>, k: Key, j: nat) {
    j <= |attested| && (forall l :: 0 <= l < j ==> attested[l].0 != k) && (j < |attested| ==> attested[j].0 == k)
  }

  lemma {:induction false} CachedAt(attested: seq<(Key, Ident)>, k: Key, j: nat)
    requires IsPlace(attested, k, j)
    ensures Cached(attested, k) == if j < |attested| then Some(attested[j].1) else None
  {
    if j > 0 { CachedAt(attested[1..], k, j - 1); }
  }

  /** What is in the cache after a conforming flight has landed: its key has the identity that it saw.  A key that
      was there keeps its place; a new one goes to the end, and out of 512 entries the oldest makes room for it. */
  lemma LandingRecords(t: Tables, e: Env, now: nat, f: FlightId, o: Outcome, j: nat)
    requires Inv(t, e, now) && Enabled(t, e, now, Land(f, o)) && Conforms(e, t.flights[f].key, o) && IsPlace(t.attested, t.flights[f].key, j)
    ensures e.at(t.flights[f].key.path, o.after).File?
    ensures var k, a, a' := t.flights[f].key, t.attested, Apply(t, e, now, Land(f, o)).attested;
            var entry := (k, e.at(k.path, o.after).ident);
            && Cached(a', k) == Some(entry.1) && |a'| <= 512
            && a' == if j < |a| then a[..j] + ([entry] + a[j + 1..]) else if |a| < 512 then a + [entry] else a[1..] + [entry]
  {
    var k, a := t.flights[f].key, t.attested;
    assert |a| <= 512;
    assert o.Hashed? && e.at(k.path, o.after).File?;
    hide Inv, Honest, Conforms, Put, CacheInv;
    var i := e.at(k.path, o.after).ident;
    PutAt(a, k, i, j);
    var a' := Insert(a, k, i);
    assert a[..|a|] == a;
    if j == |a| == 512 { assert (a + [(k, i)])[1..] == a[1..] + [(k, i)]; }
    CachedAt(a', k, if j < |a| then j else |a'| - 1);
  }

  /** What a caller finds, exactly: it is answered from the cache if and only if its key is there with the identity
      of its own stat; else it joins the flight of its key on its own loop if there is one, and starts a new one
      if there is none. */
  lemma CallerDecides(t: Tables, e: Env, now: nat, c: CallerId, f: FlightId)
    requires c in t.callers
    ensures Enabled(t, e, now, Check(c)) ==>
              var s := t.callers[c]; var t' := Apply(t, e, now, Check(c));
              && t' == t.(callers := t'.callers) && t'.callers.Keys == t.callers.Keys
              && (t'.callers[c] == HitAt(s.key, s.at) <==> e.at(s.key.path, s.at).File? && Cached(t.attested, s.key) == Some(e.at(s.key.path, s.at).ident))
              && (t'.callers[c] != HitAt(s.key, s.at) ==> t'.callers[c] == Missed(s.key, s.loop))
    ensures Enabled(t, e, now, Join(c, f)) && TableInv(t.inflight, t.flights) ==>
              var m := t.callers[c]; var t' := Apply(t, e, now, Join(c, f));
              && (t'.callers[c] == Joined(f) <==> !(m.key in t.inflight && t.flights[t.inflight[m.key]].loop == m.loop))
              && (if t'.callers[c] == Joined(f) then t' == Working(t, c, m.key, m.loop, f)
                  else t' == t.(callers := t.callers[c := Joined(t.inflight[m.key])]))
  {
    hide Cached;
  }

  // ---------------------------------------------------------------- single flight

  predicate Running(t: Tables, f: FlightId) { f in t.flights && !t.flights[f].cleaned }

  predicate OnLoop(c: Caller, l: LoopId) { (c.Statted? ==> c.loop == l) && (c.Missed? ==> c.loop == l) }

  /** Everything happens on loop l, and what runs is what is in flight. */
  ghost predicate SingleInv(t: Tables, l: LoopId) {
    && TableInv(t.inflight, t.flights)
    && (forall c :: c in t.callers ==> OnLoop(t.callers[c], l))
    && (forall f :: f in t.flights ==> t.flights[f].loop == l)
    && (forall f :: Running(t, f) ==> t.flights[f].key in t.inflight && t.inflight[t.flights[f].key] == f)
  }

  lemma SingleStep(t: Tables, e: Env, now: nat, st: Step, l: LoopId)
    requires SingleInv(t, l) && Enabled(t, e, now, st) && (st.Stat? ==> st.loop == l)
    ensures SingleInv(Apply(t, e, now, st), l)
  {
    hide Honest, Conforms, Insert, Cached;
    match st
    case Join(c, f) => assert OnLoop(t.callers[c], l); JoinSingle(t, c, f, l);
    case Land(f, o) => LandSingle(t, e, f, o, l);
    case Clean(f) => CleanSingle(t, f, l);
    case Check(c) => assert OnLoop(t.callers[c], l);
    case _ =>
  }

  lemma JoinSingle(t: Tables, c: CallerId, f: FlightId, l: LoopId)
    requires SingleInv(t, l) && c in t.callers && t.callers[c].Missed? && t.callers[c].loop == l && f !in t.flights
    ensures SingleInv(DoJoin(t, c, f), l)
  {
    var t' := DoJoin(t, c, f);
    forall g | Running(t', g) ensures t'.flights[g].key in t'.inflight && t'.inflight[t'.flights[g].key] == g {
      if g != f { assert Running(t, g); }
    }
  }

  lemma LandSingle(t: Tables, e: Env, f: FlightId, o: Outcome, l: LoopId)
    requires SingleInv(t, l) && f in t.flights
    ensures SingleInv(DoLand(t, e, f, o), l)
  {
    hide Conforms, Insert;
    var t' := DoLand(t, e, f, o);
    forall g | Running(t', g) ensures t'.flights[g].key in t'.inflight && t'.inflight[t'.flights[g].key] == g { assert Running(t, g); }
  }

  lemma CleanSingle(t: Tables, f: FlightId, l: LoopId)
    requires SingleInv(t, l) && f in t.flights && t.flights[f].outcome.Some?
    ensures SingleInv(DoClean(t, f), l)
  {
    var t' := DoClean(t, f);
    forall g | Running(t', g) ensures t'.flights[g].key in t'.inflight && t'.inflight[t'.flights[g].key] == g { assert Running(t, g); }
  }

  /** On one event loop, at most one worker hashes a key at a time. */
  lemma {:induction false} OneWorkerPerKey(e: Env, trace: seq<Tables>, steps: seq<Step>, times: seq<nat>, k: nat, l: LoopId)
    requires Run(e, trace, steps, times) && k <= |steps| && forall i :: 0 <= i < k && steps[i].Stat? ==> steps[i].loop == l
    ensures SingleInv(trace[k], l)
    ensures forall f, g :: Running(trace[k], f) && Running(trace[k], g) && trace[k].flights[f].key == trace[k].flights[g].key ==> f == g
  {
    hide Apply, Enabled;
    if k > 0 {
      OneWorkerPerKey(e, trace, steps, times, k - 1, l);
      SingleStep(trace[k - 1], e, times[k - 1], steps[k - 1], l);
      assert trace[k - 1 + 1] == Apply(trace[k - 1], e, times[k - 1], steps[k - 1]);
    }
  }

  /** With several loops: a caller whose own loop already runs a worker g for its key starts a second one
      exactly when the entry in flight is gone or belongs to another loop. */
  lemma SecondWorkerIff(t: Tables, c: CallerId, f: FlightId, g: FlightId)
    requires TableInv(t.inflight, t.flights) && c in t.callers && t.callers[c].Missed? && f !in t.flights
    requires Running(t, g) && t.flights[g].key == t.callers[c].key && t.flights[g].loop == t.callers[c].loop
    ensures var k := t.callers[c].key; var t' := DoJoin(t, c, f);
            (Running(t', f) && Running(t', g) && f != g && t'.flights[f].key == t'.flights[g].key
             && t'.flights[f].loop == t'.flights[g].loop)
            <==> (k !in t.inflight || t.flights[t.inflight[k]].loop != t.callers[c].loop)
  {
  }

  /** The steps are possible one after the other at now, and lead from t to u. */
  ghost predicate ReachesAt(e: Env, now: nat, t: Tables, steps: seq<Step>, u: Tables)
    decreases |steps|
  {
    if steps == [] then u == t else Enabled(t, e, now, steps[0]) && ReachesAt(e, now, Apply(t, e, now, steps[0]), steps[1..], u)
  }

  ghost predicate Reaches(e: Env, t: Tables, steps: seq<Step>, u: Tables) { ReachesAt(e, 0, t, steps, u) }

  function TwoLoops(k: Key): seq<Step> {
    [Stat(1, k, 1, 0), Check(1), Join(1, 10), Stat(2, k, 2, 0), Check(2), Join(2, 20), Stat(3, k, 1, 0), Check(3), Join(3, 30)]
  }

  /** c has started the worker f for k on its loop. */
  function Working(t: Tables, c: CallerId, k: Key, loop: LoopId, f: FlightId): Tables {
    t.(callers := t.callers[c := Joined(f)], inflight := t.inflight[k := f], flights := t.flights[f := Flight(k, loop, None, false)])
  }

  lemma StartsWorker(e: Env, t: Tables, c: CallerId, k: Key, loop: LoopId, f: FlightId)
    requires e.at(k.path, 0).File? && c !in t.callers && f !in t.flights && Cached(t.attested, k) == None && !Joinable(t, k, loop)
    ensures Enabled(t, e, 0, Stat(c, k, loop, 0))
    ensures var t1 := Apply(t, e, 0, Stat(c, k, loop, 0));
            && Enabled(t1, e, 0, Check(c))
            && (var t2 := Apply(t1, e, 0, Check(c));
                Enabled(t2, e, 0, Join(c, f)) && Apply(t2, e, 0, Join(c, f)) == Working(t, c, k, loop, f))
  {
    var t1 := Apply(t, e, 0, Stat(c, k, loop, 0));
    var t2 := Apply(t1, e, 0, Check(c));
    assert Apply(t2, e, 0, Join(c, f)).callers == t.callers[c := Joined(f)];
  }

  lemma ReachesWorker(e: Env, t: Tables, c: CallerId, k: Key, loop: LoopId, f: FlightId, rest: seq<Step>, u: Tables)
    requires e.at(k.path, 0).File? && c !in t.callers && f !in t.flights && Cached(t.attested, k) == None && !Joinable(t, k, loop)
    requires Reaches(e, Working(t, c, k, loop, f), rest, u)
    ensures Reaches(e, t, [Stat(c, k, loop, 0), Check(c), Join(c, f)] + rest, u)
  {
    StartsWorker(e, t, c, k, loop, f);
    hide Enabled, Apply, Working, Joinable, Cached;
    var s := [Stat(c, k, loop, 0), Check(c), Join(c, f)] + rest;
    assert s[1..] == [Check(c), Join(c, f)] + rest && s[1..][1..] == [Join(c, f)] + rest && s[1..][1..][1..] == rest;
    var t1 := Apply(t, e, 0, s[0]);
    var t2 := Apply(t1, e, 0, s[1]);
    assert Reaches(e, t2, s[1..][1..], u);
    assert Reaches(e, t1, s[1..], u);
  }

  /** It does happen: loops 1 and 2 take turns, and loop 1 ends up with two workers for one key. */
  lemma TwoWorkersOnOneLoop(e: Env, k: Key)
    requires e.at(k.path, 0).File?
    ensures exists t :: Reaches(e, EMPTY, TwoLoops(k), t) && Running(t, 10) && Running(t, 30)
                        && t.flights[10].key == t.flights[30].key && t.flights[10].loop == t.flights[30].loop
  {
    hide Reaches;
    var t1 := Working(EMPTY, 1, k, 1, 10);
    var t2 := Working(t1, 2, k, 2, 20);
    var t3 := Working(t2, 3, k, 1, 30);
    var last := [Stat(3, k, 1, 0), Check(3), Join(3, 30)];
    var rest := [Stat(2, k, 2, 0), Check(2), Join(2, 20)] + last;
    assert last + [] == last && [Stat(1, k, 1, 0), Check(1), Join(1, 10)] + rest == TwoLoops(k);
    ReachesNone(e, t3);
    ReachesWorker(e, t2, 3, k, 1, 30, [], t3);
    ReachesWorker(e, t1, 2, k, 2, 20, last, t3);
    ReachesWorker(e, EMPTY, 1, k, 1, 10, rest, t3);
  }

  lemma ReachesNone(e: Env, t: Tables)
    ensures Reaches(e, t, [], t)
  {
  }

  // ---------------------------------------------------------------- an attestation that nothing disturbs

  lemma ReachesOn(e: Env, now: nat, t: Tables, st: Step, t1: Tables, rest: seq<Step>, u: Tables)
    requires Enabled(t, e, now, st) && Apply(t, e, now, st) == t1 && ReachesAt(e, now, t1, rest, u)
    ensures ReachesAt(e, now, t, [st] + rest, u)
  {
    hide Enabled, Apply;
    assert ([st] + rest)[1..] == rest;
  }

  lemma ReachesNowhere(e: Env, now: nat, t: Tables)
    ensures ReachesAt(e, now, t, [], t)
  {
  }

  /** Nobody has k in the cache or in flight, c and d are new, and so is the flight f. */
  predicate Unknown(t: Tables, k: Key, c: CallerId, d: CallerId, f: FlightId) {
    c !in t.callers && d !in t.callers && c != d && f !in t.flights && k !in t.inflight && forall j :: 0 <= j < |t.attested| ==> t.attested[j].0 != k
  }

  /** t after the flight f, for the caller c, with the outcome o. */
  function Flown(t: Tables, k: Key, c: CallerId, loop: LoopId, f: FlightId, o: Outcome, attested: seq<(Key, Ident)>): Tables {
    t.(callers := t.callers[c := Joined(f)], flights := t.flights[f := Flight(k, loop, Some(o), true)], attested := attested)
  }

  lemma MissGoes(t: Tables, e: Env, now: nat, k: Key, c: CallerId, d: CallerId, loop: LoopId, f: FlightId, at: nat)
    requires Unknown(t, k, c, d, f) && at <= now && e.at(k.path, at).File?
    ensures var t1, t2 := t.(callers := t.callers[c := Statted(k, loop, at)]), t.(callers := t.callers[c := Missed(k, loop)]);
            && Enabled(t, e, now, Stat(c, k, loop, at)) && Apply(t, e, now, Stat(c, k, loop, at)) == t1
            && Enabled(t1, e, now, Check(c)) && Apply(t1, e, now, Check(c)) == t2
            && Enabled(t2, e, now, Join(c, f)) && Apply(t2, e, now, Join(c, f)) == Working(t, c, k, loop, f)
  {
    CachedAt(t.attested, k, |t.attested|);
    hide Cached;
    assert t.callers[c := Statted(k, loop, at)][c := Missed(k, loop)] == t.callers[c := Missed(k, loop)];
    assert t.callers[c := Missed(k, loop)][c := Joined(f)] == t.callers[c := Joined(f)];
  }

  lemma LandGoes(t: Tables, e: Env, now: nat, k: Key, c: CallerId, d: CallerId, loop: LoopId, f: FlightId, o: Outcome)
    requires Unknown(t, k, c, d, f) && Honest(e, k, o, now) && Conforms(e, k, o) && |t.attested| <= 512
    ensures o.Hashed? && e.at(k.path, o.after).File?
    ensures var entry := (k, e.at(k.path, o.after).ident);
            var a' := if |t.attested| < 512 then t.attested + [entry] else t.attested[1..] + [entry];
            var t3 := Working(t, c, k, loop, f); var t4 := t3.(flights := t.flights[f := Flight(k, loop, Some(o), false)], attested := a');
            && Enabled(t3, e, now, Land(f, o)) && Apply(t3, e, now, Land(f, o)) == t4
            && Enabled(t4, e, now, Clean(f)) && Apply(t4, e, now, Clean(f)) == Flown(t, k, c, loop, f, o, a')
  {
    var i, a := e.at(k.path, o.after).ident, t.attested;
    PutAt(a, k, i, |a|);
    assert a[..|a|] == a && (|a| > 0 ==> (a + [(k, i)])[1..] == a[1..] + [(k, i)]);
    hide Put;
    assert t.flights[f := Flight(k, loop, None, false)][f := Flight(k, loop, Some(o), false)] == t.flights[f := Flight(k, loop, Some(o), false)];
    assert t.flights[f := Flight(k, loop, Some(o), false)][f := Flight(k, loop, Some(o), true)] == t.flights[f := Flight(k, loop, Some(o), true)];
    assert t.inflight[k := f] - {k} == t.inflight;
  }

  lemma HitGoes(t: Tables, e: Env, now: nat, k: Key, d: CallerId, loop: LoopId, at: nat, i: Ident)
    requires d !in t.callers && at <= now && e.at(k.path, at).File? && e.at(k.path, at).ident == i
    requires t.attested != [] && t.attested[|t.attested| - 1] == (k, i) && IsPlace(t.attested, k, |t.attested| - 1)
    ensures var t1 := t.(callers := t.callers[d := Statted(k, loop, at)]);
            && Enabled(t, e, now, Stat(d, k, loop, at)) && Apply(t, e, now, Stat(d, k, loop, at)) == t1
            && Enabled(t1, e, now, Check(d)) && Apply(t1, e, now, Check(d)) == t.(callers := t.callers[d := HitAt(k, at)])
  {
    CachedAt(t.attested, k, |t.attested| - 1);
    hide Cached;
    assert t.callers[d := Statted(k, loop, at)][d := HitAt(k, at)] == t.callers[d := HitAt(k, at)];
  }

  function AttestScript(k: Key, c: CallerId, d: CallerId, loop: LoopId, f: FlightId, o: Outcome, at: nat, later: nat): seq<Step> {
    [Stat(c, k, loop, at)] + ([Check(c)] + ([Join(c, f)] + ([Land(f, o)] + ([Clean(f)] + ([Stat(d, k, loop, later)] + ([Check(d)] + []))))))
  }

  lemma {:induction false} EntersLast(a: seq<(Key, Ident)>, entry: (Key, Ident))
    requires forall j :: 0 <= j < |a| ==> a[j].0 != entry.0
    ensures IsPlace(a + [entry], entry.0, |a|)
    ensures |a| > 0 ==> IsPlace(a[1..] + [entry], entry.0, |a| - 1)
  {
  }

  /** An attestation that nothing disturbs, in any reachable state: a caller misses the cache, its flight reads the
      file, finds the declared digest and records the identity, and a second caller that sees the same identity
      is answered from the cache, without a flight of its own. */
  lemma AttestedOnce(t: Tables, e: Env, now: nat, k: Key, c: CallerId, d: CallerId, loop: LoopId, f: FlightId, o: Outcome, at: nat, later: nat)
    requires Inv(t, e, now) && Unknown(t, k, c, d, f) && at <= now && later <= now && e.at(k.path, at).File? && e.at(k.path, later).File?
    requires Honest(e, k, o, now) && Conforms(e, k, o) && o.Hashed? && e.at(k.path, o.after).File? && e.at(k.path, later).ident == e.at(k.path, o.after).ident
    ensures var entry := (k, e.at(k.path, o.after).ident);
            var a' := if |t.attested| < 512 then t.attested + [entry] else t.attested[1..] + [entry];
            var u := Flown(t, k, c, loop, f, o, a');
            ReachesAt(e, now, t, AttestScript(k, c, d, loop, f, o, at, later), u.(callers := u.callers[d := HitAt(k, later)]))
  {
    var entry := (k, e.at(k.path, o.after).ident);
    var a' := if |t.attested| < 512 then t.attested + [entry] else t.attested[1..] + [entry];
    assert |t.attested| <= 512;
    EntersLast(t.attested, entry);
    MissGoes(t, e, now, k, c, d, loop, f, at);
    LandGoes(t, e, now, k, c, d, loop, f, o);
    var t1, t2 := t.(callers := t.callers[c := Statted(k, loop, at)]), t.(callers := t.callers[c := Missed(k, loop)]);
    var t3 := Working(t, c, k, loop, f);
    var t4 := t3.(flights := t.flights[f := Flight(k, loop, Some(o), false)], attested := a');
    var t5 := Flown(t, k, c, loop, f, o, a');
    HitGoes(t5, e, now, k, d, loop, later, entry.1);
    var t6, u := t5.(callers := t5.callers[d := Statted(k, loop, later)]), t5.(callers := t5.callers[d := HitAt(k, later)]);
    hide Inv, Enabled, Apply, ReachesAt, Honest, Conforms, Unknown, Working, Flown;
    ReachesNowhere(e, now, u);
    ReachesOn(e, now, t6, Check(d), u, [], u);
    ReachesOn(e, now, t5, Stat(d, k, loop, later), t6, [Check(d)] + [], u);
    ReachesOn(e, now, t4, Clean(f), t5, [Stat(d, k, loop, later)] + ([Check(d)] + []), u);
    ReachesOn(e, now, t3, Land(f, o), t4, [Clean(f)] + ([Stat(d, k, loop, later)] + ([Check(d)] + [])), u);
    ReachesOn(e, now, t2, Join(c, f), t3, [Land(f, o)] + ([Clean(f)] + ([Stat(d, k, loop, later)] + ([Check(d)] + []))), u);
    ReachesOn(e, now, t1, Check(c), t2, [Join(c, f)] + ([Land(f, o)] + ([Clean(f)] + ([Stat(d, k, loop, later)] + ([Check(d)] + [])))), u);
    ReachesOn(e, now, t, Stat(c, k, loop, at), t1,
              [Check(c)] + ([Join(c, f)] + ([Land(f, o)] + ([Clean(f)] + ([Stat(d, k, loop, later)] + ([Check(d)] + []))))), u);
  }

  // ---------------------------------------------------------------- the mutable tables

  class IntegrityTables {
    var attested: seq<(Key, Ident)>
    var inflight: map<Key, (LoopId, FlightId)>

    constructor ()
      ensures attested == [] && inflight == map[]
    {
      attested, inflight := [], map[];
    }

    /** _attested.get(key) == identity */
    method Lookup(k: Key, i: Ident) returns (hit: bool)
      ensures hit <==> Cached(attested, k) == Some(i)
    {
      var j := 0;
      while j < |attested| && attested[j].0 != k
        invariant 0 <= j <= |attested| && Cached(attested, k) == Cached(attested[j..], k)
      {
        assert attested[j..][1..] == attested[j + 1..];
        j := j + 1;
      }
      return j < |attested| && attested[j].1 == i;
    }

    /** The single-flight section: join the flight of this loop, or replace the entry by a new one. */
    method Claim(k: Key, loop: LoopId, candidate: FlightId) returns (flight: FlightId, started: bool)
      modifies this`inflight
      ensures started <==> !(k in old(inflight) && old(inflight)[k].0 == loop)
      ensures flight == if started then candidate else old(inflight)[k].1
      ensures inflight == if started then old(inflight)[k := (loop, candidate)] else old(inflight)
      ensures k in inflight && inflight[k] == (loop, flight)
    {
      if k in inflight && inflight[k].0 == loop { return inflight[k].1, false; }
      inflight := inflight[k := (loop, candidate)];
      return candidate, true;
    }

    /** _attested[key] = identity, and the bound. */
    method Record(k: Key, i: Ident)
      requires |attested| <= CACHE_MAX
      modifies this`attested
      ensures attested == Insert(old(attested), k, i) && |attested| <= CACHE_MAX
    {
      hide Put;
      PutEntries(attested, k, i);
      var j := 0;
      while j < |attested| && attested[j].0 != k
        invariant 0 <= j <= |attested| && forall l :: 0 <= l < j ==> attested[l].0 != k
      {
        j := j + 1;
      }
      PutAt(attested, k, i, j);
      if j < |attested| {
        attested := attested[..j] + ([(k, i)] + attested[j + 1..]);
      } else {
        attested := attested[..j] + [(k, i)];
      }
      if |attested| > CACHE_MAX { attested := attested[1..]; }
    }

    /** Only the worker that is still in flight removes the entry. */
    method Drop(k: Key, flight: FlightId)
      modifies this`inflight
      ensures inflight == if k in old(inflight) && old(inflight)[k].1 == flight then old(inflight) - {k} else old(inflight)
    {
      if k in inflight && inflight[k].1 == flight { inflight := inflight - {k}; }
    }
  }
}
