/** A whole mutation of models.yaml: the expected document, and the registry object. */
module RegistryPlan {
  import opened RegistryEntries
  import opened RegistryDelta

  // ---------------------------------------------------------------- the memory and the disk

  /** An ordered dictionary of models, keyed by their id. */
  function Find(models: seq<Model>, id: string): (r: Option<Model>)
    ensures r.Some? ==> r.value in models && r.value.id == id
    ensures r.None? ==> forall m :: m in models ==> m.id != id
  {
    if models == [] then None
    else if models[|models| - 1].id == id then Some(models[|models| - 1])
    else Find(models[..|models| - 1], id)
  }

  predicate Distinct(models: seq<Model>) {
    forall i, j :: 0 <= i < j < |models| ==> models[i].id != models[j].id
  }

  lemma {:induction false} FindIn(models: seq<Model>, m: Model)
    requires Distinct(models) && m in models
    ensures Find(models, m.id) == Some(m)
  {
    var n := |models| - 1;
    if models[n] != m {
      var i :| 0 <= i < |models| && models[i] == m;
      assert models[..n][i] == m;
      assert models[n].id != m.id;
      FindIn(models[..n], m);
    }
  }

  /** An entry without a usable id stops every retouch; one whose id is not a string never parses. */
  function IdOf(v: Value): Option<string> {
    if v.VMap? && Id in v.entries && v.entries[Id].VStr? && v.entries[Id].s != "" then Some(v.entries[Id].s) else None
  }

  predicate Indexable(raw: seq<Value>) {
    && (forall i :: 0 <= i < |raw| ==> IdOf(raw[i]).Some?)
    && (forall i, j :: 0 <= i < j < |raw| ==> IdOf(raw[i]) != IdOf(raw[j]))
  }

  predicate HasId(raw: seq<Value>, id: string) { exists i :: 0 <= i < |raw| && IdOf(raw[i]) == Some(id) }

  /** _assert_disk_matches_precedent: the file still means what the memory was loaded from. */
  predicate DiskMatches(raw: seq<Value>, precedent: seq<Model>, p: Paths) {
    && Indexable(raw)
    && (forall m :: m in precedent ==> HasId(raw, m.id))
    && (forall i :: 0 <= i < |raw| ==> EntryMatches(raw[i], precedent, p))
  }

  predicate EntryMatches(e: Value, precedent: seq<Model>, p: Paths) {
    && IdOf(e).Some? && Find(precedent, IdOf(e).value).Some? && ParseEntry(e, p).Some?
    && ToDict(ParseEntry(e, p).value) == ToDict(Find(precedent, IdOf(e).value).value)
  }

  // ---------------------------------------------------------------- the expected document

  /** Removed entries go, the others are retouched in place. */
  function Kept(raw: seq<Value>, models: seq<Model>, p: Paths): Option<seq<Value>>
    requires forall i :: 0 <= i < |raw| ==> IdOf(raw[i]).Some?
  {
    if raw == [] then Some([])
    else
      var n := |raw| - 1;
      var rest := Kept(raw[..n], models, p);
      var m := Find(models, IdOf(raw[n]).value);
      if rest.None? || m.None? then rest
      else if EntryDelta(raw[n].entries, m.value, p).Refuse? then None
      else Some(rest.value + [VMap(Retouched(raw[n].entries, m.value, p))])
  }

  /** New models are appended, in the order of the memory. */
  function Added(raw: seq<Value>, models: seq<Model>): seq<Value> {
    if models == [] then []
    else
      var n := |models| - 1;
      Added(raw, models[..n]) + if HasId(raw, models[n].id) then [] else [VMap(ToDict(models[n]))]
  }

  function Plan(raw: seq<Value>, precedent: seq<Model>, models: seq<Model>, p: Paths): Option<seq<Value>> {
    if !DiskMatches(raw, precedent, p) || Kept(raw, models, p).None? then None
    else Some(Kept(raw, models, p).value + Added(raw, models))
  }

  /** The document means exactly these models, id by id. */
  ghost predicate Means(out: seq<Value>, models: seq<Model>, p: Paths) {
    && (forall i :: 0 <= i < |out| ==> ParseEntry(out[i], p).Some? && Find(models, IdIn(out[i], p)) == ParseEntry(out[i], p))
    && (forall i, j :: 0 <= i < j < |out| ==> IdIn(out[i], p) != IdIn(out[j], p))
    && (forall m :: m in models ==> exists i :: 0 <= i < |out| && ParseEntry(out[i], p) == Some(m))
  }

  function IdIn(v: Value, p: Paths): string { if ParseEntry(v, p).Some? then ParseEntry(v, p).value.id else "" }

  ghost predicate AllValid(models: seq<Model>, p: Paths) { forall m :: m in models ==> Valid(m, p) }

  lemma {:induction false} KeptMeans(raw: seq<Value>, models: seq<Model>, p: Paths)
    requires Indexable(raw) && AllValid(models, p) && Kept(raw, models, p).Some?
    ensures var out := Kept(raw, models, p).value;
            && (forall i :: 0 <= i < |out| ==>
                  && ParseEntry(out[i], p).Some? && Find(models, IdIn(out[i], p)) == ParseEntry(out[i], p)
                  && HasId(raw, IdIn(out[i], p)))
            && (forall i, j :: 0 <= i < j < |out| ==> IdIn(out[i], p) != IdIn(out[j], p))
            && (forall j :: 0 <= j < |raw| && Find(models, IdOf(raw[j]).value).Some? ==>
                  exists i :: 0 <= i < |out| && ParseEntry(out[i], p) == Find(models, IdOf(raw[j]).value))
  {
    hide Valid, ParseEntry, EntryDelta, Retouched, ToDict;
    if raw != [] {
      var n := |raw| - 1;
      KeptMeans(raw[..n], models, p);
      var rest, out := Kept(raw[..n], models, p).value, Kept(raw, models, p).value;
      var id := IdOf(raw[n]).value;
      var m := Find(models, id);
      forall x | HasId(raw[..n], x) ensures HasId(raw, x) && x != id {
        var i :| 0 <= i < n && IdOf(raw[..n][i]) == Some(x);
        assert IdOf(raw[i]) == Some(x);
      }
      assert HasId(raw, id);
      if m.Some? {
        DeltaMeaning(raw[n].entries, m.value, p);
        assert out == rest + [VMap(Retouched(raw[n].entries, m.value, p))];
        assert ParseEntry(out[|rest|], p) == m;
      }
      forall j | 0 <= j < |raw| && Find(models, IdOf(raw[j]).value).Some?
        ensures exists i :: 0 <= i < |out| && ParseEntry(out[i], p) == Find(models, IdOf(raw[j]).value)
      {
        if j < n {
          assert raw[..n][j] == raw[j];
          var i :| 0 <= i < |rest| && ParseEntry(rest[i], p) == Find(models, IdOf(raw[j]).value);
          assert out[i] == rest[i];
        }
      }
    }
  }

  lemma {:induction false} AddedParses(raw: seq<Value>, models: seq<Model>, p: Paths, i: nat)
    requires AllValid(models, p) && i < |Added(raw, models)|
    ensures var e := Added(raw, models)[i];
            ParseEntry(e, p).Some? && ParseEntry(e, p).value in models && !HasId(raw, IdIn(e, p))
  {
    hide Valid, ParseEntry, ToDict, HasId;
    var n := |models| - 1;
    if i < |Added(raw, models[..n])| {
      AddedParses(raw, models[..n], p, i);
    } else {
      RoundTrip(models[n], p);
    }
  }

  lemma {:induction false} AddedDistinct(raw: seq<Value>, models: seq<Model>, p: Paths, i: nat, j: nat)
    requires AllValid(models, p) && Distinct(models) && i < j < |Added(raw, models)|
    ensures IdIn(Added(raw, models)[i], p) != IdIn(Added(raw, models)[j], p)
  {
    hide Valid, ParseEntry, ToDict, HasId;
    var n := |models| - 1;
    if j < |Added(raw, models[..n])| {
      AddedDistinct(raw, models[..n], p, i, j);
    } else {
      RoundTrip(models[n], p);
      AddedParses(raw, models[..n], p, i);
      var m := ParseEntry(Added(raw, models[..n])[i], p).value;
      var k :| 0 <= k < n && models[..n][k] == m;
      assert models[k].id != models[n].id;
    }
  }

  lemma {:induction false} AddedCovers(raw: seq<Value>, models: seq<Model>, p: Paths, m: Model)
    requires AllValid(models, p) && m in models && !HasId(raw, m.id)
    ensures exists i :: 0 <= i < |Added(raw, models)| && ParseEntry(Added(raw, models)[i], p) == Some(m)
  {
    hide Valid, ParseEntry, ToDict, HasId;
    var n := |models| - 1;
    var rest := Added(raw, models[..n]);
    if m == models[n] {
      RoundTrip(m, p);
      assert ParseEntry(Added(raw, models)[|rest|], p) == Some(m);
    } else {
      var k :| 0 <= k < |models| && models[k] == m;
      assert models[..n][k] == m;
      AddedCovers(raw, models[..n], p, m);
      var i :| 0 <= i < |rest| && ParseEntry(rest[i], p) == Some(m);
      assert Added(raw, models)[i] == rest[i];
    }
  }

  /** What KeptMeans says of the retouched entries. */
  ghost predicate KeptOk(kept: seq<Value>, raw: seq<Value>, models: seq<Model>, p: Paths) {
    && (forall i :: 0 <= i < |kept| ==>
          && ParseEntry(kept[i], p).Some? && Find(models, IdIn(kept[i], p)) == ParseEntry(kept[i], p)
          && HasId(raw, IdIn(kept[i], p)))
    && (forall i, j :: 0 <= i < j < |kept| ==> IdIn(kept[i], p) != IdIn(kept[j], p))
  }

  lemma CombinedParses(kept: seq<Value>, raw: seq<Value>, models: seq<Model>, p: Paths, i: nat)
    requires Distinct(models) && AllValid(models, p) && KeptOk(kept, raw, models, p)
    requires i < |kept + Added(raw, models)|
    ensures var e := (kept + Added(raw, models))[i]; ParseEntry(e, p).Some? && Find(models, IdIn(e, p)) == ParseEntry(e, p)
  {
    hide Valid, ParseEntry, ToDict, HasId;
    if i >= |kept| {
      AddedParses(raw, models, p, i - |kept|);
      FindIn(models, ParseEntry(Added(raw, models)[i - |kept|], p).value);
    }
  }

  lemma CombinedDistinct(kept: seq<Value>, raw: seq<Value>, models: seq<Model>, p: Paths, i: nat, j: nat)
    requires Distinct(models) && AllValid(models, p) && KeptOk(kept, raw, models, p)
    requires i < j < |kept + Added(raw, models)|
    ensures IdIn((kept + Added(raw, models))[i], p) != IdIn((kept + Added(raw, models))[j], p)
  {
    hide Valid, ParseEntry, ToDict, HasId, IdIn;
    if i >= |kept| {
      AddedDistinct(raw, models, p, i - |kept|, j - |kept|);
    } else if j >= |kept| {
      AddedParses(raw, models, p, j - |kept|);
    }
  }

  lemma Covers(raw: seq<Value>, models: seq<Model>, p: Paths, m: Model)
    requires Indexable(raw) && Distinct(models) && AllValid(models, p) && Kept(raw, models, p).Some? && m in models
    ensures exists i :: 0 <= i < |Kept(raw, models, p).value + Added(raw, models)|
                        && ParseEntry((Kept(raw, models, p).value + Added(raw, models))[i], p) == Some(m)
  {
    hide Valid, ParseEntry, ToDict, EntryDelta, Retouched;
    var kept, added := Kept(raw, models, p).value, Added(raw, models);
    if HasId(raw, m.id) {
      FindIn(models, m);
      KeptMeans(raw, models, p);
      var j :| 0 <= j < |raw| && IdOf(raw[j]) == Some(m.id);
      assert Find(models, IdOf(raw[j]).value).Some?;
      var i :| 0 <= i < |kept| && ParseEntry(kept[i], p) == Find(models, IdOf(raw[j]).value);
      assert (kept + added)[i] == kept[i];
    } else {
      AddedCovers(raw, models, p, m);
      var i :| 0 <= i < |added| && ParseEntry(added[i], p) == Some(m);
      assert (kept + added)[|kept| + i] == added[i];
    }
  }

  lemma KeptIsOk(raw: seq<Value>, models: seq<Model>, p: Paths)
    requires Indexable(raw) && AllValid(models, p) && Kept(raw, models, p).Some?
    ensures KeptOk(Kept(raw, models, p).value, raw, models, p)
  {
    hide Valid, ParseEntry, ToDict, EntryDelta, Retouched, HasId, IdIn;
    KeptMeans(raw, models, p);
  }

  /** The expected document of an accepted plan reparses, id by id, to exactly the new models. */
  lemma PlanMeaning(raw: seq<Value>, precedent: seq<Model>, models: seq<Model>, p: Paths)
    requires Distinct(models) && AllValid(models, p) && Plan(raw, precedent, models, p).Some?
    ensures Means(Plan(raw, precedent, models, p).value, models, p)
  {
    hide Valid, ParseEntry, ToDict, HasId, EntryDelta, EntryMatches, Distinct, Retouched, IdIn, KeptOk, AllValid;
    KeptIsOk(raw, models, p);
    var kept := Kept(raw, models, p).value;
    var out := kept + Added(raw, models);
    forall i | 0 <= i < |out| ensures ParseEntry(out[i], p).Some? && Find(models, IdIn(out[i], p)) == ParseEntry(out[i], p) {
      CombinedParses(kept, raw, models, p, i);
    }
    forall i, j | 0 <= i < j < |out| ensures IdIn(out[i], p) != IdIn(out[j], p) { CombinedDistinct(kept, raw, models, p, i, j); }
    forall m | m in models ensures exists i :: 0 <= i < |out| && ParseEntry(out[i], p) == Some(m) { Covers(raw, models, p, m); }
  }

  // ---------------------------------------------------------------- what stays verbatim

  /** An entry whose meaning does not change keeps its place in the document, byte for byte of its structure;
      in a changed one, every key whose meaning does not change keeps its raw value. */
  lemma Verbatim(d: Dict, m: Model, p: Paths, k: Key)
    requires ParseEntry(VMap(d), p).Some? && !EntryDelta(d, m, p).Refuse?
    ensures ParseEntry(VMap(d), p) == Some(m) ==> Retouched(d, m, p) == d
    ensures Print(ParseEntry(VMap(d), p).value, k) == Print(m, k) ==> Get(Retouched(d, m, p), k) == Get(d, k)
  {
    hide ParseEntry, ToDict, Print, LlamaDict, ScalarDelta, LlamaDelta;
    var was := ParseEntry(VMap(d), p).value;
    if EntryDelta(d, m, p).Change? {
      RetouchedAt(d, was, m, p, k);
      if k == LlamaParams && Print(was, k) == Print(m, k) {
        assert was.llama == m.llama by { SameLlama(was, m); }
      }
    }
  }

  lemma SameLlama(was: Model, m: Model)
    requires Print(was, LlamaParams) == Print(m, LlamaParams)
    ensures was.llama == m.llama
  {
    hide LlamaDict;
    LlamaDictInjective(was.llama, m.llama);
  }

  /** The entries that stay, in the order of the file, each retouched or verbatim. */
  lemma {:induction false} KeptInOrder(raw: seq<Value>, models: seq<Model>, p: Paths, j: nat)
    requires Indexable(raw) && Kept(raw, models, p).Some? && j < |raw| && Find(models, IdOf(raw[j]).value).Some?
    ensures Kept(raw[..j], models, p).Some?
    ensures var i := |Kept(raw[..j], models, p).value|; var out := Kept(raw, models, p).value;
            i < |out| && out[i] == VMap(Retouched(raw[j].entries, Find(models, IdOf(raw[j]).value).value, p))
            && out[..i] == Kept(raw[..j], models, p).value
  {
    hide Retouched, EntryDelta, Find;
    var n := |raw| - 1;
    if j < n {
      KeptInOrder(raw[..n], models, p, j);
      assert raw[..n][..j] == raw[..j];
    } else {
      assert raw[..j] == raw[..n];
    }
  }

  // ---------------------------------------------------------------- which mutations are planned

  predicate AdminKey(k: Key) { k == Description || k == VramGb || k == Enabled || k == LlamaParams }

  /** What the admin routes may change in a model that stays. */
  ghost predicate AdminChange(was: Model, want: Model) {
    forall k :: AdminKey(k) || Print(was, k) == Print(want, k)
  }

  lemma AdminDelta(d: Dict, was: Model, m: Model, p: Paths)
    requires ParseEntry(VMap(d), p) == Some(was) && AdminChange(was, m)
    ensures !EntryDelta(d, m, p).Refuse?
  {
    hide ParseEntry, ToDict, LlamaDict, ScalarDelta, LlamaDelta;
    forall k | k in ToDict(was) ensures k in ToDict(m) {
      assert Get(ToDict(was), k) == Print(was, k) && Get(ToDict(m), k) == Print(m, k);
    }
    forall k | k in ScalarDelta(was, m) ensures Scalar(ScalarDelta(was, m)[k]) { ScalarDeltaAt(was, m, k); }
  }

  /** The memory after a mutation, entry by entry, against the memory before. */
  ghost predicate Mutated(precedent: seq<Model>, models: seq<Model>) {
    forall m :: m in models && Find(precedent, m.id).Some? ==> AdminChange(Find(precedent, m.id).value, m)
  }

  lemma {:induction false} KeptSucceeds(raw: seq<Value>, precedent: seq<Model>, models: seq<Model>, p: Paths)
    requires forall i :: 0 <= i < |raw| ==> IdOf(raw[i]).Some? && EntryMatches(raw[i], precedent, p)
    requires Mutated(precedent, models)
    ensures Kept(raw, models, p).Some?
  {
    hide ParseEntry, ToDict, EntryDelta, Retouched, AdminChange, Find;
    if raw != [] {
      var n := |raw| - 1;
      KeptSucceeds(raw[..n], precedent, models, p);
      var id := IdOf(raw[n]).value;
      var m := Find(models, id);
      if m.Some? {
        var was := ParseEntry(raw[n], p).value;
        assert EntryMatches(raw[n], precedent, p);
        ToDictInjective(was, Find(precedent, id).value);
        assert Find(precedent, m.value.id).Some?;
        assert VMap(raw[n].entries) == raw[n];
        AdminDelta(raw[n].entries, was, m.value, p);
      }
    }
  }

  /** A mutation is planned exactly when the file still means what the memory was loaded from. */
  lemma PlannedIffDiskMatches(raw: seq<Value>, precedent: seq<Model>, models: seq<Model>, p: Paths)
    requires Mutated(precedent, models)
    ensures Plan(raw, precedent, models, p).Some? <==> DiskMatches(raw, precedent, p)
  {
    hide ParseEntry, ToDict, EntryDelta, Mutated, Find, Kept, EntryMatches;
    if DiskMatches(raw, precedent, p) { KeptSucceeds(raw, precedent, models, p); }
  }

  // ---------------------------------------------------------------- the update that is not validated

  predicate AtMostZero(s: Size) { s.Finite? && s.r <= 0.0 }

  /** What update() lets pass: it checks neither the length of the description nor that the size is finite. */
  predicate PassesUpdate(m: Model, p: Paths) {
    Valid(m.(description := "", vram := Finite(1.0)), p) && !AtMostZero(m.vram)
  }

  /** What a caller of update() can look at: the rest of what the parser asks for. */
  predicate Acceptable(m: Model) { |m.description| <= 200 && m.vram.Finite? }

  lemma AcceptableIsMissing(m: Model, p: Paths)
    ensures Valid(m, p) <==> PassesUpdate(m, p) && Acceptable(m)
  {
    hide IdOk, LlamaOk, SpecOk, LowerHex, KnownCapability;
  }

  lemma ParsedAcceptable(d: Dict, m: Model, p: Paths)
    requires ParseEntry(VMap(d), p) == Some(m)
    ensures Acceptable(m) && ReadDescription(Get(d, Description)) == Some(m.description) && ReadVram(Get(d, VramGb)) == Some(m.vram)
  {
    ParseIsReading(d, m, p);
    hide ParseEntry, ReadId, ReadPath, ReadCapabilities, ReadMmproj, ReadTimeout, ReadSpec, ReadSha, CrossOk, ReadLlama, EntryKey;
  }

  /** The expected entry of such an update means the new model exactly when the description has at most 200
      characters and the size is finite; otherwise it does not parse at all. */
  lemma UpdateReparsesIff(d: Dict, m: Model, p: Paths)
    requires PassesUpdate(m, p) && !EntryDelta(d, m, p).Refuse?
    ensures ParseEntry(VMap(Retouched(d, m, p)), p) == Some(m) <==> |m.description| <= 200 && m.vram.Finite?
    ensures ParseEntry(VMap(Retouched(d, m, p)), p).Some? <==> |m.description| <= 200 && m.vram.Finite?
  {
    hide Valid, ParseEntry, ToDict, ScalarDelta, LlamaDelta, LlamaDict, Fields, CrossOk;
    AcceptableIsMissing(m, p);
    if Acceptable(m) {
      DeltaMeaning(d, m, p);
    } else {
      var e := Retouched(d, m, p);
      var was := ParseEntry(VMap(d), p).value;
      ParsedAcceptable(d, was, p);
      if EntryDelta(d, m, p).Same? {
        ToDictInjective(was, m);
      } else {
        RetouchedAt(d, was, m, p, Description);
        RetouchedAt(d, was, m, p, VramGb);
        if ParseEntry(VMap(e), p).Some? { ParsedAcceptable(e, ParseEntry(VMap(e), p).value, p); }
      }
    }
  }

  lemma NewEntryReparses(m: Model, p: Paths)
    requires PassesUpdate(m, p)
    ensures ParseEntry(VMap(ToDict(m)), p).Some? <==> Acceptable(m)
  {
    hide Valid, ParseEntry, ToDict, Fields, CrossOk;
    AcceptableIsMissing(m, p);
    RoundTrip(m, p);
    if ParseEntry(VMap(ToDict(m)), p).Some? { ParsedAcceptable(ToDict(m), ParseEntry(VMap(ToDict(m)), p).value, p); }
  }

  // ---------------------------------------------------------------- the mutable registry

  datatype Outcome = Done | Invalid | Exists | Unknown | WriteRefused

  datatype Update = Update(description: Option<string>, vram: Option<Size>, enabled: Option<bool>, llama: Option<Llama>)

  function Updated(m: Model, u: Update): Model {
    m.(description := Or(u.description, m.description), vram := Or(u.vram, m.vram), enabled := Or(u.enabled, m.enabled),
       llama := Or(u.llama, m.llama))
  }

  /** Replacing the value of a key that is there keeps its place. */
  function Replaced(models: seq<Model>, m: Model): (r: seq<Model>)
    ensures |r| == |models| && forall i :: 0 <= i < |models| ==> r[i] == if models[i].id == m.id then m else models[i]
  {
    seq(|models|, i requires 0 <= i < |models| => if models[i].id == m.id then m else models[i])
  }

  function Removed(models: seq<Model>, id: string): (r: seq<Model>)
    ensures forall m :: m in r <==> m in models && m.id != id
    ensures Distinct(models) ==> Distinct(r)
  {
    if models == [] then []
    else
      var n := |models| - 1;
      var rest := Removed(models[..n], id);
      assert models == models[..n] + [models[n]];
      if models[n].id == id then rest else rest + [models[n]]
  }

  /** What an update is asked to do to one model, field by field. */
  ghost predicate Edits(was: Model, now: Model, u: Update) {
    && now.description == (if u.description.Some? then u.description.value else was.description)
    && now.vram == (if u.vram.Some? then u.vram.value else was.vram)
    && now.enabled == (if u.enabled.Some? then u.enabled.value else was.enabled)
    && now.llama == (if u.llama.Some? then u.llama.value else was.llama)
    && SameDeployment(was, now)
  }

  /** The fields that no update touches. */
  ghost predicate SameDeployment(was: Model, now: Model) {
    && now.id == was.id && now.path == was.path && now.capabilities == was.capabilities && now.mmproj == was.mmproj
    && now.timeout == was.timeout && now.spec == was.spec && now.sha == was.sha && now.mmprojSha == was.mmprojSha
  }

  /** The model with this id is edited in its place, and every other one is as before. */
  ghost predicate EditedAt(was: seq<Model>, now: seq<Model>, id: string, u: Update) {
    && |now| == |was|
    && (forall i :: 0 <= i < |was| ==> if was[i].id == id then Edits(was[i], now[i], u) else now[i] == was[i])
  }

  lemma ReplacedIsEdited(models: seq<Model>, was: Model, u: Update)
    requires Distinct(models) && was in models
    ensures EditedAt(models, Replaced(models, Updated(was, u)), was.id, u)
  {
    forall i | 0 <= i < |models| && models[i].id == was.id ensures models[i] == was {
      var k :| 0 <= k < |models| && models[k] == was;
    }
  }

  /** The entry that is removed leaves the others in their order. */
  lemma {:induction false} RemovedAt(models: seq<Model>, k: nat)
    requires Distinct(models) && k < |models|
    ensures Removed(models, models[k].id) == models[..k] + models[k + 1..]
  {
    var n := |models| - 1;
    assert models == models[..n] + [models[n]];
    if k < n {
      RemovedAt(models[..n], k);
      Cut(models, k);
      assert models[n].id != models[k].id;
    } else {
      RemovedNone(models[..n], models[n].id);
      assert models[..k] + models[k + 1..] == models[..n];
    }
  }

  lemma Cut(models: seq<Model>, k: nat)
    requires k + 1 < |models|
    ensures var n := |models| - 1; models[..k] + models[k + 1..] == (models[..n][..k] + models[..n][k + 1..]) + [models[n]]
  {
  }

  lemma {:induction false} RemovedNone(models: seq<Model>, id: string)
    requires forall i :: 0 <= i < |models| ==> models[i].id != id
    ensures Removed(models, id) == models
  {
    if models != [] {
      var n := |models| - 1;
      var rest := models[..n];
      assert models == rest + [models[n]];
      assert forall i :: 0 <= i < n ==> rest[i] == models[i];
      RemovedNone(rest, id);
    }
  }

  class ModelRegistry {
    var models: seq<Model>
    /** The entries of models.yaml, as last written or rewritten by others. */
    var disk: seq<Value>
    const paths: Paths

    ghost predicate Sane()
      reads this
    {
      Distinct(models) && AllValid(models, paths)
    }

    constructor (paths: Paths)
      ensures Sane() && models == [] && disk == [] && this.paths == paths
    {
      this.paths := paths;
      models, disk := [], [];
    }

    /** The loop that indexes the entries of the file. */
    method IndexEntries(raw: seq<Value>) returns (ok: bool, positions: map<string, nat>)
      ensures ok <==> Indexable(raw)
      ensures ok ==> forall id :: id in positions <==> HasId(raw, id)
    {
      positions := map[];
      for i := 0 to |raw|
        invariant forall k :: 0 <= k < i ==> IdOf(raw[k]).Some? && IdOf(raw[k]).value in positions
        invariant forall j, k :: 0 <= j < k < i ==> IdOf(raw[j]) != IdOf(raw[k])
        invariant forall id :: id in positions ==> positions[id] < i && IdOf(raw[positions[id]]) == Some(id)
      {
        if IdOf(raw[i]).None? || IdOf(raw[i]).value in positions { return false, positions; }
        positions := positions[IdOf(raw[i]).value := i];
      }
      return true, positions;
    }

    /** The comparison with the previous memory. */
    method CheckDisk(raw: seq<Value>, precedent: seq<Model>) returns (ok: bool)
      ensures ok <==> DiskMatches(raw, precedent, paths)
    {
      hide EntryMatches, HasId, Indexable;
      var positions;
      ok, positions := IndexEntries(raw);
      if !ok { return; }
      for i := 0 to |precedent|
        invariant forall k :: 0 <= k < i ==> HasId(raw, precedent[k].id)
      {
        if precedent[i].id !in positions { return false; }
      }
      for i := 0 to |raw|
        invariant forall k :: 0 <= k < i ==> EntryMatches(raw[k], precedent, paths)
      {
        if !EntryMatches(raw[i], precedent, paths) { return false; }
      }
      return true;
    }

    /** The loops of _plan_registry_text over the entries of the file. */
    method RetouchEntries() returns (kept: Option<seq<Value>>)
      requires Indexable(disk)
      ensures kept == Kept(disk, models, paths)
    {
      hide EntryDelta, Retouched;
      var out: seq<Value> := [];
      for i := 0 to |disk|
        invariant Kept(disk[..i], models, paths) == Some(out)
      {
        assert disk[..i + 1][..i] == disk[..i];
        var m := Find(models, IdOf(disk[i]).value);
        if m.Some? {
          if EntryDelta(disk[i].entries, m.value, paths).Refuse? {
            KeptNone(disk, models, paths, i + 1);
            return None;
          }
          out := out + [VMap(Retouched(disk[i].entries, m.value, paths))];
        }
      }
      assert disk[..|disk|] == disk;
      return Some(out);
    }

    /** The loop of _plan_registry_text over the new models. */
    method AppendEntries() returns (out: seq<Value>)
      ensures out == Added(disk, models)
    {
      hide HasId, ToDict;
      out := [];
      for i := 0 to |models|
        invariant out == Added(disk, models[..i])
      {
        assert models[..i + 1][..i] == models[..i];
        if !HasId(disk, models[i].id) { out := out + [VMap(ToDict(models[i]))]; }
      }
      assert models[..|models|] == models;
    }

    method PlanRegistry(precedent: seq<Model>) returns (plan: Option<seq<Value>>)
      ensures plan == Plan(disk, precedent, models, paths)
    {
      var ok := CheckDisk(disk, precedent);
      if !ok { return None; }
      var kept := RetouchEntries();
      if kept.None? { return None; }
      var added := AppendEntries();
      return Some(kept.value + added);
    }

    /** _save: a refusal restores the memory of before the mutation.  writable tells whether the text can be
        retouched and the file written; the written file is validated entry by entry. */
    method Save(precedent: seq<Model>, writable: bool) returns (ok: bool)
      requires Distinct(models) && (forall m :: m in models ==> PassesUpdate(m, paths))
      requires Distinct(precedent) && AllValid(precedent, paths) && Mutated(precedent, models)
      modifies this
      ensures Sane()
      ensures ok ==> models == old(models) && Means(disk, models, paths)
      ensures !ok ==> models == precedent && disk == old(disk)
      ensures ok ==> DiskMatches(old(disk), precedent, paths) && Some(disk) == Plan(old(disk), precedent, old(models), paths)
      ensures DiskMatches(old(disk), precedent, paths) && writable && AllValid(old(models), paths) ==> ok
    {
      hide DiskMatches, Means, Mutated, Distinct, PassesUpdate, RegistryEntries.Valid;
      var plan := PlanRegistry(precedent);
      PlannedIffDiskMatches(disk, precedent, models, paths);
      if plan.None? {
        models := precedent;
        return false;
      }
      var parses := forall i :: 0 <= i < |plan.value| ==> ParseEntry(plan.value[i], paths).Some?;
      if plan.value != disk && (!writable || !parses) {
        if AllValid(models, paths) {
          PlanMeaning(disk, precedent, models, paths);
          MeaningParses(plan.value, models, paths);
        }
        models := precedent;
        return false;
      }
      if plan.value == disk { DiskParses(disk, precedent, paths); }
      ParsedPlanIsValid(disk, precedent, models, paths);
      PlanMeaning(disk, precedent, models, paths);
      disk := plan.value;
      return true;
    }

    method Add(entry: Value, writable: bool) returns (r: Outcome)
      requires Sane() && Sound(paths)
      modifies this
      ensures Sane() && (r != Done ==> models == old(models) && disk == old(disk))
      ensures r == Invalid <==> ParseEntry(entry, paths).None?
      ensures r == Exists <==> ParseEntry(entry, paths).Some? && Find(old(models), ParseEntry(entry, paths).value.id).Some?
      ensures r == Done ==> models == old(models) + [ParseEntry(entry, paths).value] && Means(disk, models, paths)
      ensures r == Done ==> DiskMatches(old(disk), old(models), paths)
      // A new, valid entry is added whenever the file matches the memory and can be written.
      ensures r != Invalid && r != Exists && writable && DiskMatches(old(disk), old(models), paths) ==> r == Done
    {
      hide RegistryEntries.Valid, PassesUpdate, DiskMatches, Means, Mutated, Distinct, AllValid, Plan, Sound, ParseEntry;
      var m := ParseEntry(entry, paths);
      if m.None? { return Invalid; }
      ParsedIsValid(entry, paths);
      if Find(models, m.value.id).Some? { return Exists; }
      var precedent := models;
      models := models + [m.value];
      AddedIsMutated(precedent, m.value, paths);
      var ok := Save(precedent, writable);
      return if ok then Done else WriteRefused;
    }

    method SetEnabled(id: string, enabled: bool, writable: bool) returns (r: Outcome)
      requires Sane()
      modifies this
      ensures Sane() && (r != Done ==> models == old(models) && disk == old(disk))
      ensures r == Done ==> Find(old(models), id).Some? && Means(disk, models, paths)
                            && models == Replaced(old(models), Find(old(models), id).value.(enabled := enabled))
      ensures r == Done ==> EditedAt(old(models), models, id, Update(None, None, Some(enabled), None))
      ensures r == Done ==> DiskMatches(old(disk), old(models), paths)
      ensures (r == Unknown <==> Find(old(models), id).None?) && r != Invalid && r != Exists
      ensures r != Unknown && writable && DiskMatches(old(disk), old(models), paths) ==> r == Done
    {
      hide PassesUpdate, DiskMatches, Means, LlamaOk, Replaced, Distinct, Plan;
      r := UpdateModel(id, Update(None, None, Some(enabled), None), writable);
    }

    /** update(): that the size is not at most zero and the parameters are checked, the length of the
        description and that the size is finite are not. */
    method UpdateModel(id: string, u: Update, writable: bool) returns (r: Outcome)
      requires Sane()
      modifies this
      ensures Sane() && (r != Done ==> models == old(models) && disk == old(disk))
      ensures (r == Unknown <==> Find(old(models), id).None?) && r != Exists
      ensures r == Invalid <==> (
                Find(old(models), id).Some?
                && ((u.llama.Some? && !LlamaOk(u.llama.value)) || (u.vram.Some? && AtMostZero(u.vram.value))))
      ensures r == Done ==> DiskMatches(old(disk), old(models), paths)
      ensures r == Done ==> Means(disk, models, paths) && models == Replaced(old(models), Updated(Find(old(models), id).value, u))
      ensures r == Done ==> EditedAt(old(models), models, id, u)
      // On a file that matches the memory and can be written, the write succeeds exactly when the description
      // has at most 200 characters and the size is finite.
      ensures (r == Done || r == WriteRefused) && writable && DiskMatches(old(disk), old(models), paths) ==>
                (r == Done <==> (u.description.Some? ==> |u.description.value| <= 200) && (u.vram.Some? ==> u.vram.value.Finite?))
    {
      hide RegistryEntries.Valid, PassesUpdate, DiskMatches, Means, Mutated, LlamaOk, Replaced, Distinct, Plan;
      var found := Find(models, id);
      if found.None? { return Unknown; }
      UpdatedBounds(found.value, u, paths);
      if u.llama.Some? && !LlamaOk(u.llama.value) { return Invalid; }
      var m := Updated(found.value, u);
      if AtMostZero(m.vram) { return Invalid; }
      var precedent := models;
      models := Replaced(models, m);
      ReplacedIsEdited(precedent, found.value, u);
      ReplacedIsMutated(precedent, found.value, m, u, paths);
      ReplacedIsValidIff(precedent, found.value, m, paths);
      var ok := Save(precedent, writable);
      return if ok then Done else WriteRefused;
    }

    method Remove(id: string, writable: bool) returns (r: Outcome)
      requires Sane()
      modifies this
      ensures Sane() && (r != Done ==> models == old(models) && disk == old(disk))
      ensures (r == Unknown <==> Find(old(models), id).None?) && r != Invalid && r != Exists
      ensures r == Done ==> models == Removed(old(models), id) && Means(disk, models, paths)
      ensures r == Done ==> exists k: nat :: k < |old(models)| && old(models)[k].id == id && models == old(models)[..k] + old(models)[k + 1..]
      ensures r == Done ==> DiskMatches(old(disk), old(models), paths)
      ensures r != Unknown && writable && DiskMatches(old(disk), old(models), paths) ==> r == Done
    {
      if Find(models, id).None? { return Unknown; }
      var precedent := models;
      ghost var k: nat :| k < |models| && models[k] == Find(models, id).value;
      RemovedAt(models, k);
      models := Removed(models, id);
      SameIsMutated(precedent, models);
      forall x | x in models ensures PassesUpdate(x, paths) { AcceptableIsMissing(x, paths); }
      var ok := Save(precedent, writable);
      return if ok then Done else WriteRefused;
    }
  }

  lemma {:induction false} KeptNone(raw: seq<Value>, models: seq<Model>, p: Paths, i: nat)
    requires Indexable(raw) && i <= |raw| && Kept(raw[..i], models, p).None?
    ensures Kept(raw, models, p).None?
    decreases |raw|
  {
    hide EntryDelta, Retouched;
    if i < |raw| {
      assert raw[..|raw| - 1][..i] == raw[..i];
      KeptNone(raw[..|raw| - 1], models, p, i);
    } else {
      assert raw[..i] == raw;
    }
  }

  lemma DiskParses(raw: seq<Value>, precedent: seq<Model>, p: Paths)
    requires DiskMatches(raw, precedent, p)
    ensures forall i :: 0 <= i < |raw| ==> ParseEntry(raw[i], p).Some?
  {
    hide ParseEntry, ToDict, Indexable, HasId;
  }

  lemma MeaningParses(out: seq<Value>, models: seq<Model>, p: Paths)
    requires Means(out, models, p)
    ensures forall i :: 0 <= i < |out| ==> ParseEntry(out[i], p).Some?
  {
  }

  /** A new model leaves the others as they are. */
  lemma AddedIsMutated(precedent: seq<Model>, m: Model, p: Paths)
    requires Distinct(precedent) && AllValid(precedent, p) && Valid(m, p) && Find(precedent, m.id).None?
    ensures var models := precedent + [m];
            && Distinct(models) && AllValid(models, p) && Mutated(precedent, models)
            && (forall x :: x in models ==> PassesUpdate(x, p))
  {
    hide Valid, PassesUpdate, Mutated;
    SameIsMutated(precedent, precedent + [m]);
    forall x | x in precedent + [m] ensures PassesUpdate(x, p) { AcceptableIsMissing(x, p); }
  }

  /** A model printed identically is an admissible change. */
  lemma SameIsMutated(precedent: seq<Model>, models: seq<Model>)
    requires Distinct(precedent)
    requires forall m :: m in models && Find(precedent, m.id).Some? ==> m in precedent
    ensures Mutated(precedent, models)
  {
    forall m | m in models && Find(precedent, m.id).Some? ensures AdminChange(Find(precedent, m.id).value, m) {
      FindIn(precedent, m);
    }
  }

  lemma AdminFields(was: Model, want: Model)
    requires want == was.(description := want.description, vram := want.vram, enabled := want.enabled, llama := want.llama)
    ensures AdminChange(was, want)
  {
  }

  lemma ReplacedIsMutated(precedent: seq<Model>, was: Model, m: Model, u: Update, p: Paths)
    requires Distinct(precedent) && AllValid(precedent, p) && was in precedent && m == Updated(was, u) && !AtMostZero(m.vram)
    requires u.llama.Some? ==> LlamaOk(u.llama.value)
    ensures Mutated(precedent, Replaced(precedent, m)) && Distinct(Replaced(precedent, m))
    ensures m in Replaced(precedent, m) && forall x :: x in Replaced(precedent, m) ==> PassesUpdate(x, p)
  {
    hide IdOk, LlamaOk, SpecOk, LowerHex, KnownCapability, AdminChange, Valid;
    var models := Replaced(precedent, m);
    var i :| 0 <= i < |precedent| && precedent[i] == was;
    assert models[i] == m;
    FindIn(precedent, was);
    AdminFields(was, m);
    forall x | x in models && Find(precedent, x.id).Some? ensures AdminChange(Find(precedent, x.id).value, x) {
      if x.id != m.id { FindIn(precedent, x); AdminFields(x, x); }
    }
    forall x | x in models ensures PassesUpdate(x, p) {
      if x in precedent { AcceptableIsMissing(x, p); } else { UpdatedValid(was, m, u, p); }
    }
  }

  /** Among the models of a mutation only the new one can be one that the parser refuses. */
  lemma ReplacedIsValidIff(precedent: seq<Model>, was: Model, m: Model, p: Paths)
    requires AllValid(precedent, p) && was in precedent && m.id == was.id && PassesUpdate(m, p)
    ensures AllValid(Replaced(precedent, m), p) <==> |m.description| <= 200 && m.vram.Finite?
  {
    hide Valid, PassesUpdate;
    AcceptableIsMissing(m, p);
    var i :| 0 <= i < |precedent| && precedent[i] == was;
    assert Replaced(precedent, m)[i] == m;
  }

  /** The old values are within the bounds, so only given ones can break them. */
  lemma UpdatedBounds(was: Model, u: Update, p: Paths)
    requires Valid(was, p)
    ensures var m := Updated(was, u);
            && (AtMostZero(m.vram) <==> u.vram.Some? && AtMostZero(u.vram.value))
            && (|m.description| <= 200 && m.vram.Finite? <==>
                  (u.description.Some? ==> |u.description.value| <= 200) && (u.vram.Some? ==> u.vram.value.Finite?))
  {
    hide IdOk, LlamaOk, SpecOk, LowerHex, KnownCapability;
  }

  lemma UpdatedValid(was: Model, m: Model, u: Update, p: Paths)
    requires Valid(was, p) && m == Updated(was, u) && !AtMostZero(m.vram) && (u.llama.Some? ==> LlamaOk(u.llama.value))
    ensures PassesUpdate(m, p)
  {
    hide IdOk, LlamaOk, SpecOk, LowerHex, KnownCapability;
  }

  /** If every entry of the plan parses, every model is valid. */
  lemma ParsedPlanIsValid(raw: seq<Value>, precedent: seq<Model>, models: seq<Model>, p: Paths)
    requires Distinct(models) && (forall m :: m in models ==> PassesUpdate(m, p)) && Plan(raw, precedent, models, p).Some?
    requires var out := Plan(raw, precedent, models, p).value; forall i :: 0 <= i < |out| ==> ParseEntry(out[i], p).Some?
    ensures AllValid(models, p)
  {
    hide Valid, ParseEntry, ToDict, EntryDelta, Retouched, EntryMatches, PassesUpdate;
    var kept, added := Kept(raw, models, p).value, Added(raw, models);
    var out := kept + added;
    forall m | m in models ensures Valid(m, p) {
      AcceptableIsMissing(m, p);
      if HasId(raw, m.id) {
        FindIn(models, m);
        var j :| 0 <= j < |raw| && IdOf(raw[j]) == Some(m.id);
        KeptInOrder(raw, models, p, j);
        KeptNotRefused(raw, models, p, j);
        var i := |Kept(raw[..j], models, p).value|;
        assert out[i] == kept[i];
        UpdateReparsesIff(raw[j].entries, m, p);
      } else {
        var i := AddedAt(raw, models, m);
        assert out[|kept| + i] == added[i];
        NewEntryReparses(m, p);
      }
    }
  }

  lemma {:induction false} KeptNotRefused(raw: seq<Value>, models: seq<Model>, p: Paths, j: nat)
    requires Indexable(raw) && Kept(raw, models, p).Some? && j < |raw| && Find(models, IdOf(raw[j]).value).Some?
    ensures !EntryDelta(raw[j].entries, Find(models, IdOf(raw[j]).value).value, p).Refuse?
  {
    hide EntryDelta, Retouched;
    if j < |raw| - 1 { KeptNotRefused(raw[..|raw| - 1], models, p, j); }
  }

  lemma {:induction false} AddedAt(raw: seq<Value>, models: seq<Model>, m: Model) returns (i: nat)
    requires m in models && !HasId(raw, m.id)
    ensures i < |Added(raw, models)| && Added(raw, models)[i] == VMap(ToDict(m))
  {
    hide HasId, ToDict;
    var n := |models| - 1;
    if m == models[n] {
      i := |Added(raw, models[..n])|;
    } else {
      var k :| 0 <= k < |models| && models[k] == m;
      assert models[..n][k] == m;
      i := AddedAt(raw, models[..n], m);
    }
  }
}
