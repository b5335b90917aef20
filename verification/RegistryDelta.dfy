/** Admin mutations of models.yaml (gateway/model_registry.py): the difference between an entry on disk
  and the model in memory, the document a mutation is expected to produce, and the rollback of the
  memory when the write is refused.  The text of the file (comments, layout) is not modelled. */
module RegistryDelta {
  import opened RegistryEntries

  // ---------------------------------------------------------------- one entry

  datatype Delta = Same | Refuse | Change(scalars: Dict, llama: Dict, absent: bool)

  predicate Scalar(v: Value) { !v.VList? && !v.VMap? }

  /** What has to be written under llama_params: changed fields, and false for a cpu_moe that to_dict omits. */
  function LlamaDelta(was: Llama, want: Llama): Dict {
    (map k | k in LlamaDict(want) && Get(LlamaDict(was), k) != Some(LlamaDict(want)[k]) :: LlamaDict(want)[k])
    + (map k | k in LlamaDict(was) && k !in LlamaDict(want) :: VBool(false))
  }

  function ScalarDelta(was: Model, want: Model): Dict {
    map k | k in ToDict(want) && k != LlamaParams && Print(was, k) != Print(want, k) :: ToDict(want)[k]
  }

  /** The raw entry has no llama_params object to retouch. */
  predicate LlamaAbsent(d: Dict) { LlamaParams !in d || !d[LlamaParams].VMap? || d[LlamaParams].entries == map[] }

  /** _entry_delta: both sides are normalised, so a field that is omitted and has its default is no difference. */
  function EntryDelta(d: Dict, m: Model, p: Paths): Delta {
    var parsed := ParseEntry(VMap(d), p);
    if parsed.None? then Refuse
    else
      var was := parsed.value;
      if ToDict(was) == ToDict(m) then Same
      else if exists k :: k in ToDict(was) && k !in ToDict(m) then Refuse
      else if exists k :: k in ScalarDelta(was, m) && !Scalar(ScalarDelta(was, m)[k]) then Refuse
      else Change(ScalarDelta(was, m), LlamaDelta(was.llama, m.llama), LlamaAbsent(d))
  }

  function ApplyDelta(d: Dict, m: Model, delta: Delta): Dict
    requires delta.Change? && !delta.absent ==> !LlamaAbsent(d)
  {
    if !delta.Change? then d
    else if delta.llama == map[] then d + delta.scalars
    else if delta.absent then (d + delta.scalars)[LlamaParams := VMap(LlamaDict(m.llama))]
    else (d + delta.scalars)[LlamaParams := VMap(d[LlamaParams].entries + delta.llama)]
  }

  function Retouched(d: Dict, m: Model, p: Paths): Dict { ApplyDelta(d, m, EntryDelta(d, m, p)) }

  lemma WordsInjective(a: seq<string>, b: seq<string>)
    requires Words(a) == Words(b)
    ensures a == b
  {
    forall i | 0 <= i < |a| ensures a[i] == b[i] { assert Words(a)[i] == Words(b)[i]; }
  }

  lemma LlamaDictInjective(a: Llama, b: Llama)
    requires LlamaDict(a) == LlamaDict(b)
    ensures a == b
  {
    hide LlamaDict;
    forall k ensures LlamaPrint(a, k) == LlamaPrint(b, k) { assert Get(LlamaDict(a), k) == Get(LlamaDict(b), k); }
    LlamaPrintInjective(a, b);
  }

  lemma LlamaPrintInjective(a: Llama, b: Llama)
    requires forall k :: LlamaPrint(a, k) == LlamaPrint(b, k)
    ensures a == b
  {
    assert a.nGpuLayers == b.nGpuLayers by { assert LlamaPrint(a, NGpuLayers) == LlamaPrint(b, NGpuLayers); }
    assert a.ctxSize == b.ctxSize by { assert LlamaPrint(a, CtxSize) == LlamaPrint(b, CtxSize); }
    assert a.parallel == b.parallel by { assert LlamaPrint(a, Parallel) == LlamaPrint(b, Parallel); }
    assert a.batch == b.batch by { assert LlamaPrint(a, BatchSize) == LlamaPrint(b, BatchSize); }
    assert a.ubatch == b.ubatch by { assert LlamaPrint(a, UbatchSize) == LlamaPrint(b, UbatchSize); }
    assert a.cacheK == b.cacheK by { assert LlamaPrint(a, CacheTypeK) == LlamaPrint(b, CacheTypeK); }
    assert a.cacheV == b.cacheV by { assert LlamaPrint(a, CacheTypeV) == LlamaPrint(b, CacheTypeV); }
    assert a.flash == b.flash by { assert LlamaPrint(a, FlashAttn) == LlamaPrint(b, FlashAttn); }
    assert a.threads == b.threads by { assert LlamaPrint(a, Threads) == LlamaPrint(b, Threads); }
    assert a.threadsHttp == b.threadsHttp by { assert LlamaPrint(a, ThreadsHttp) == LlamaPrint(b, ThreadsHttp); }
    assert a.cpuMoe == b.cpuMoe by { assert LlamaPrint(a, CpuMoe) == LlamaPrint(b, CpuMoe); }
  }

  lemma SpecDictInjective(a: Spec, b: Spec)
    requires SpecDict(a) == SpecDict(b)
    ensures a == b
  {
    var d := SpecDict(a);
    assert d[SpecType] == VStr(a.kind) == VStr(b.kind) && d[DraftMax] == VInt(a.draftMax) == VInt(b.draftMax);
    assert d[DraftMin] == VInt(a.draftMin) == VInt(b.draftMin) && d[DraftPMin] == VFloat(a.pMin) == VFloat(b.pMin);
  }

  /** Two models that print the same under a key mean the same under it. */
  lemma SamePrintSameMeaning(was: Model, m: Model, k: Key, v: Option<Value>, p: Paths)
    requires Print(was, k) == Print(m, k) && FieldRead(v, k, was, p)
    ensures FieldRead(v, k, m, p)
  {
    hide ReadSpec, ReadSha, ReadLlama, ReadCapabilities, LlamaDict, SpecDict, Words, ReadId, ReadPath, ReadMmproj, ReadTimeout, ReadVram;
    match k
    case LlamaParams => LlamaDictInjective(was.llama, m.llama);
    case Capabilities => WordsInjective(was.capabilities, m.capabilities);
    case Speculative => if m.spec.Some? { SpecDictInjective(was.spec.value, m.spec.value); }
    case _ =>
  }

  /** A model is determined by what it prints. */
  lemma ToDictInjective(a: Model, b: Model)
    requires ToDict(a) == ToDict(b)
    ensures a == b
  {
    hide LlamaDict, SpecDict, Words, ToDict;
    forall k ensures Print(a, k) == Print(b, k) { assert Get(ToDict(a), k) == Get(ToDict(b), k); }
    assert a.id == b.id by { assert Print(a, Id) == Print(b, Id); }
    assert a.path == b.path by { assert Print(a, Path) == Print(b, Path); }
    assert a.description == b.description by { assert Print(a, Description) == Print(b, Description); }
    assert a.vram == b.vram by { assert Print(a, VramGb) == Print(b, VramGb); }
    assert a.enabled == b.enabled by { assert Print(a, Enabled) == Print(b, Enabled); }
    assert a.mmproj == b.mmproj by { assert Print(a, MmprojPath) == Print(b, MmprojPath); }
    assert a.timeout == b.timeout by { assert Print(a, LoadTimeout) == Print(b, LoadTimeout); }
    assert a.sha == b.sha by { assert Print(a, Sha256) == Print(b, Sha256); }
    assert a.mmprojSha == b.mmprojSha by { assert Print(a, MmprojSha256) == Print(b, MmprojSha256); }
    assert a.spec == b.spec by {
      assert Print(a, Speculative) == Print(b, Speculative);
      if a.spec.Some? { SpecDictInjective(a.spec.value, b.spec.value); }
    }
    assert a.capabilities == b.capabilities by {
      assert Print(a, Capabilities) == Print(b, Capabilities);
      WordsInjective(a.capabilities, b.capabilities);
    }
    assert a.llama == b.llama by {
      assert Print(a, LlamaParams) == Print(b, LlamaParams);
      LlamaDictInjective(a.llama, b.llama);
    }
  }

  // ---------------------------------------------------------------- the nested object

  lemma LlamaDeltaAt(was: Llama, want: Llama, k: Key)
    ensures Get(LlamaDelta(was, want), k) ==
            if LlamaPrint(was, k) == LlamaPrint(want, k) then None
            else if LlamaPrint(want, k).Some? then LlamaPrint(want, k) else Some(VBool(false))
  {
    assert Get(LlamaDict(was), k) == LlamaPrint(was, k) && Get(LlamaDict(want), k) == LlamaPrint(want, k);
    hide LlamaDict, LlamaPrint;
  }

  lemma GetMerged(d: Dict, e: Dict, k: Key)
    ensures Get(d + e, k) == if Get(e, k).Some? then Get(e, k) else Get(d, k)
  {
  }

  /** Key by key, the retouched object reads as the wanted parameters. */
  lemma LlamaMergeAt(d: Dict, was: Llama, want: Llama, k: Key)
    requires LlamaRead(Get(d, k), k, was)
    ensures LlamaRead(Get(d + LlamaDelta(was, want), k), k, want)
  {
    LlamaDeltaAt(was, want, k);
    GetMerged(d, LlamaDelta(was, want), k);
    hide LlamaDelta, Get;
  }

  lemma LlamaMerge(d: Dict, was: Llama, want: Llama)
    requires ReadLlamaDict(d) == Some(was) && LlamaOk(want)
    ensures ReadLlamaDict(d + LlamaDelta(was, want)) == Some(want)
  {
    hide LlamaOk, LlamaDelta, ReadLlamaDict, LlamaFields, LlamaRead, LlamaKey, LlamaPrint;
    var e := d + LlamaDelta(was, want);
    LlamaIsReading(d, was);
    LlamaFieldsAreReads(d, was);
    forall k ensures LlamaRead(Get(e, k), k, want) { LlamaMergeAt(d, was, want, k); }
    LlamaFieldsAreReads(e, want);
    forall k | k in e ensures LlamaKey(k) { if k !in d { DeltaKeys(was, want, k); } }
    LlamaIsReading(e, want);
  }

  lemma DeltaKeys(was: Llama, want: Llama, k: Key)
    requires k in LlamaDelta(was, want)
    ensures LlamaKey(k)
  {
    LlamaDeltaAt(was, want, k);
    hide LlamaDelta;
  }

  /** No difference under llama_params: nothing to write, and the same parameters. */
  lemma NoLlamaDelta(was: Llama, want: Llama)
    ensures LlamaDelta(was, want) == map[] <==> was == want
  {
    hide LlamaDelta, LlamaPrint;
    if LlamaDelta(was, want) == map[] {
      forall k ensures LlamaPrint(was, k) == LlamaPrint(want, k) { LlamaDeltaAt(was, want, k); }
      LlamaPrintInjective(was, want);
    } else if was == want {
      var k :| k in LlamaDelta(was, want);
      LlamaDeltaAt(was, want, k);
      assert false;
    }
  }

  // ---------------------------------------------------------------- the entry

  lemma ScalarDeltaAt(was: Model, want: Model, k: Key)
    ensures Get(ScalarDelta(was, want), k) ==
            if k != LlamaParams && Print(want, k).Some? && Print(was, k) != Print(want, k) then Print(want, k) else None
  {
    assert Get(ToDict(want), k) == Print(want, k);
    hide Print, ToDict;
  }

  /** What the delta leaves under each key of the entry. */
  lemma RetouchedAt(d: Dict, was: Model, m: Model, p: Paths, k: Key)
    requires ParseEntry(VMap(d), p) == Some(was) && EntryDelta(d, m, p).Change?
    ensures Get(Retouched(d, m, p), k) ==
            if k == LlamaParams then
              if was.llama == m.llama then Get(d, k)
              else if LlamaAbsent(d) then Some(VMap(LlamaDict(m.llama)))
              else Some(VMap(d[LlamaParams].entries + LlamaDelta(was.llama, m.llama)))
            else if Print(m, k).Some? && Print(was, k) != Print(m, k) then Print(m, k)
            else Get(d, k)
    ensures Print(was, k).Some? ==> Print(m, k).Some?
  {
    hide ParseEntry, Print, ScalarDelta, LlamaDelta, LlamaDict, ToDict;
    NoLlamaDelta(was.llama, m.llama);
    ScalarDeltaAt(was, m, k);
    GetMerged(d, ScalarDelta(was, m), k);
    assert Get(ToDict(was), k) == Print(was, k) && Get(ToDict(m), k) == Print(m, k);
  }

  /** The parameters that the raw value under llama_params stands for. */
  lemma LlamaOfEntry(d: Dict, was: Model, p: Paths)
    requires ParseEntry(VMap(d), p) == Some(was)
    ensures ReadLlama(Get(d, LlamaParams)) == Some(was.llama)
    ensures !LlamaAbsent(d) ==> ReadLlamaDict(d[LlamaParams].entries) == Some(was.llama)
  {
    ParseIsReading(d, was, p);
    hide ParseEntry, ReadId, ReadPath, ReadDescription, ReadVram, ReadCapabilities, ReadMmproj, ReadTimeout, ReadSpec, ReadSha, CrossOk,
      ReadLlamaDict, EntryKey;
  }

  lemma RetouchedReads(d: Dict, was: Model, m: Model, p: Paths, k: Key)
    requires ParseEntry(VMap(d), p) == Some(was) && EntryDelta(d, m, p).Change? && Valid(m, p)
    requires FieldRead(Get(d, k), k, was, p)
    ensures FieldRead(Get(Retouched(d, m, p), k), k, m, p)
  {
    RetouchedAt(d, was, m, p, k);
    ValidIsFields(m, p);
    PrintReads(m, k, p);
    if k == LlamaParams {
      assert LlamaOk(m.llama) by { hide LlamaOk; assert FieldValid(m, LlamaParams, p); }
      LlamaOfEntry(d, was, p);
      LlamaRoundTrip(m.llama);
      if !LlamaAbsent(d) { LlamaMerge(d[LlamaParams].entries, was.llama, m.llama); }
      hide ParseEntry, Retouched, Valid, Print, LlamaDict, LlamaDelta, ReadLlamaDict, LlamaOk, EntryDelta;
    } else if Print(was, k) == Print(m, k) {
      SamePrintSameMeaning(was, m, k, Get(d, k), p);
    } else {
      hide ParseEntry, Retouched, Valid, FieldRead, Print, EntryDelta;
    }
  }

  /** The retouched entry parses to exactly the model in memory. */
  lemma DeltaMeaning(d: Dict, m: Model, p: Paths)
    requires Valid(m, p) && !EntryDelta(d, m, p).Refuse?
    ensures ParseEntry(VMap(Retouched(d, m, p)), p) == Some(m)
  {
    hide Valid, ParseEntry, Fields, FieldRead, Print, CrossOk, EntryKey, ToDict, ScalarDelta, LlamaDelta;
    var was := ParseEntry(VMap(d), p).value;
    if EntryDelta(d, m, p).Same? {
      ToDictInjective(was, m);
    } else {
      hide EntryDelta, ApplyDelta;
      var e := Retouched(d, m, p);
      ParseIsReading(d, was, p);
      FieldsAreReads(d, was, p);
      forall k ensures FieldRead(Get(e, k), k, m, p) {
        RetouchedReads(d, was, m, p, k);
      }
      FieldsAreReads(e, m, p);
      forall k | k in e ensures EntryKey(k) { RetouchedKeys(d, was, m, p, k); }
      ValidIsFields(m, p);
      ParseIsReading(e, m, p);
    }
  }

  lemma RetouchedKeys(d: Dict, was: Model, m: Model, p: Paths, k: Key)
    requires ParseEntry(VMap(d), p) == Some(was) && EntryDelta(d, m, p).Change? && k in Retouched(d, m, p)
    ensures EntryKey(k)
  {
    RetouchedAt(d, was, m, p, k);
    ParseIsReading(d, was, p);
    PrintedKeys(m);
    assert Get(ToDict(m), k) == Print(m, k);
    hide ParseEntry, Retouched, Print, EntryDelta, Fields, CrossOk, ToDict;
  }
}
