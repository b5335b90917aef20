/** One entry of models.yaml (gateway/model_registry.py): reading it into a model definition and
  printing that definition back. */
module RegistryEntries {
  import opened Text

  datatype Option<+T> = None | Some(value: T)

  /** The keys a registry entry knows, in the entry and in its two nested objects; any other key is Other. */
  datatype Key =
    | Id | Path | Description | VramGb | Enabled | Capabilities | LlamaParams
    | MmprojPath | MmprojSha256 | LoadTimeout | Speculative | Sha256
    | NGpuLayers | CtxSize | Parallel | BatchSize | UbatchSize | CacheTypeK | CacheTypeV
    | FlashAttn | Threads | ThreadsHttp | CpuMoe
    | SpecType | DraftMax | DraftMin | DraftPMin
    | Other(name: string)

  /** A YAML value; NonFinite stands for .inf and .nan. */
  datatype Value =
    | VStr(s: string) | VInt(i: int) | VFloat(r: real) | VNonFinite | VBool(b: bool) | VNull
    | VList(items: seq<Value>) | VMap(entries: map<Key, Value>)

  type Dict = map<Key, Value>

  datatype Llama = Llama(
    nGpuLayers: int, ctxSize: int, parallel: int, batch: int, ubatch: int, cacheK: string, cacheV: string,
    flash: bool, threads: int, threadsHttp: int, cpuMoe: bool)

  datatype Spec = Spec(kind: string, draftMax: int, draftMin: int, pMin: real)

  /** A size in GB; NonFinite stands for infinity and for what is not a number. */
  datatype Size = Finite(r: real) | NonFinite

  datatype Model = Model(
    id: string, path: string, description: string, vram: Size, enabled: bool, capabilities: seq<string>, llama: Llama,
    mmproj: Option<string>, timeout: Option<int>, spec: Option<Spec>, sha: Option<string>, mmprojSha: Option<string>)

  /** pathlib, as far as the registry uses it: the printed form of a path, and whether it is absolute, a
      .gguf and under an allowed directory. */
  datatype Paths = Paths(norm: string -> string, ok: string -> bool)

  /** Printing a path and reading it again changes nothing. */
  ghost predicate Sound(p: Paths) {
    forall s :: p.ok(s) ==> p.norm(s) != "" && p.ok(p.norm(s)) && p.norm(p.norm(s)) == p.norm(s)
  }

  function Get(d: Dict, k: Key): Option<Value> { if k in d then Some(d[k]) else None }

  // ---------------------------------------------------------------- scalars

  predicate IdChar(c: char) { 'a' <= c <= 'z' || '0' <= c <= '9' }

  predicate IdMatch(s: string) {
    1 <= |s| <= 63 && IdChar(s[0]) && forall i :: 0 < i < |s| ==> IdChar(s[i]) || s[i] == '.' || s[i] == '_' || s[i] == '-'
  }

  /** The end anchor of the pattern also matches before a final newline. */
  predicate IdOk(s: string) { IdMatch(s) || (s != "" && s[|s| - 1] == '\n' && IdMatch(s[..|s| - 1])) }

  function ReadId(v: Option<Value>): Option<string> {
    if v.Some? && v.value.VStr? && IdOk(v.value.s) then Some(v.value.s) else None
  }

  function ReadPath(v: Option<Value>, p: Paths): Option<string> {
    if v.Some? && v.value.VStr? && v.value.s != "" && p.ok(v.value.s) then Some(p.norm(v.value.s)) else None
  }

  function ReadDescription(v: Option<Value>): Option<string> {
    if v.None? then Some("") else if v.value.VStr? && |v.value.s| <= 200 then Some(v.value.s) else None
  }

  function Number(v: Value): Option<real> {
    if v.VInt? then Some(v.i as real) else if v.VFloat? then Some(v.r) else None
  }

  predicate SizeOk(s: Size) { s.Finite? && s.r > 0.0 }

  function ReadVram(v: Option<Value>): Option<Size> {
    if v.Some? && Number(v.value).Some? && Number(v.value).value > 0.0 then Some(Finite(Number(v.value).value)) else None
  }

  function ReadBool(v: Option<Value>, default: bool): Option<bool> {
    if v.None? then Some(default) else if v.value.VBool? then Some(v.value.b) else None
  }

  function ReadInt(v: Option<Value>, default: int): Option<int> {
    if v.None? then Some(default) else if v.value.VInt? then Some(v.value.i) else None
  }

  function ReadStr(v: Option<Value>, default: string): Option<string> {
    if v.None? then Some(default) else if v.value.VStr? then Some(v.value.s) else None
  }

  function ReadNum(v: Option<Value>, default: real): Option<real> {
    if v.None? then Some(default) else Number(v.value)
  }

  predicate KnownCapability(s: string) {
    s == "text_generation" || s == "streaming" || s == "tool_calls" || s == "vision" || s == "embeddings"
  }

  predicate CapabilitiesOk(items: seq<Value>) {
    items != [] && forall i :: 0 <= i < |items| ==> items[i].VStr? && KnownCapability(items[i].s)
  }

  function Strings(items: seq<Value>): (r: seq<string>)
    requires forall i :: 0 <= i < |items| ==> items[i].VStr?
    ensures |r| == |items| && forall i :: 0 <= i < |items| ==> r[i] == items[i].s
  {
    seq(|items|, i requires 0 <= i < |items| => items[i].s)
  }

  function ReadCapabilities(v: Option<Value>): Option<seq<string>> {
    if v.None? then Some(["text_generation"])
    else if v.value.VList? && CapabilitiesOk(v.value.items) then Some(Strings(v.value.items))
    else None
  }

  function ReadTimeout(v: Option<Value>): Option<Option<int>> {
    if v.None? || v.value.VNull? then Some(None)
    else if v.value.VInt? && v.value.i >= 30 then Some(Some(v.value.i)) else None
  }

  function Strip(s: string): string
    decreases |s|
  {
    if s == "" then s
    else if Space(s[0]) then Strip(s[1..])
    else if Space(s[|s| - 1]) then Strip(s[..|s| - 1])
    else s
  }

  predicate HexChar(c: char) { '0' <= c <= '9' || 'a' <= c <= 'f' || 'A' <= c <= 'F' }

  predicate Hex64(s: string) { |s| == 64 && forall i :: 0 <= i < |s| ==> HexChar(s[i]) }

  function LowerChar(c: char): char { if 'A' <= c <= 'F' then c - 'A' + 'a' else c }

  function Lower(s: string): (r: string)
    ensures |r| == |s| && forall i :: 0 <= i < |s| ==> r[i] == LowerChar(s[i])
  {
    seq(|s|, i requires 0 <= i < |s| => LowerChar(s[i]))
  }

  function ReadSha(v: Option<Value>): Option<Option<string>> {
    if v.None? || v.value.VNull? then Some(None)
    else if v.value.VStr? && Hex64(Strip(v.value.s)) then Some(Some(Lower(Strip(v.value.s)))) else None
  }

  function ReadMmproj(v: Option<Value>, p: Paths): Option<Option<string>> {
    if v.None? || v.value.VNull? then Some(None)
    else if ReadPath(v, p).Some? then Some(ReadPath(v, p)) else None
  }

  // ---------------------------------------------------------------- the nested objects

  predicate LlamaKey(k: Key) {
    k in {NGpuLayers, CtxSize, Parallel, BatchSize, UbatchSize, CacheTypeK, CacheTypeV, FlashAttn, Threads, ThreadsHttp, CpuMoe}
  }

  predicate CacheType(s: string) { s == "f16" || s == "bf16" || s == "q8_0" || s == "q5_0" || s == "q4_0" }

  predicate LlamaOk(l: Llama) {
    && l.ubatch <= l.batch && CacheType(l.cacheK) && CacheType(l.cacheV) && l.nGpuLayers >= 0 && l.ctxSize >= 512
    && l.parallel >= 1 && l.batch >= 1 && l.ubatch >= 1 && l.threads >= 1 && l.threadsHttp >= 1
  }

  /** Every field of l is what is read in d, by name or by default. */
  predicate LlamaFields(d: Dict, l: Llama) {
    && ReadInt(Get(d, NGpuLayers), 999) == Some(l.nGpuLayers) && ReadInt(Get(d, CtxSize), 32768) == Some(l.ctxSize)
    && ReadInt(Get(d, Parallel), 4) == Some(l.parallel) && ReadInt(Get(d, BatchSize), 4096) == Some(l.batch)
    && ReadInt(Get(d, UbatchSize), 512) == Some(l.ubatch)
    && ReadStr(Get(d, CacheTypeK), "q8_0") == Some(l.cacheK) && ReadStr(Get(d, CacheTypeV), "q8_0") == Some(l.cacheV)
    && ReadBool(Get(d, FlashAttn), true) == Some(l.flash) && ReadInt(Get(d, Threads), 8) == Some(l.threads)
    && ReadInt(Get(d, ThreadsHttp), 4) == Some(l.threadsHttp) && ReadBool(Get(d, CpuMoe), false) == Some(l.cpuMoe)
  }

  function Or<T>(o: Option<T>, default: T): T { if o.Some? then o.value else default }

  /** What d says, with a stand-in where a field cannot be read; LlamaFields then fails. */
  function LlamaOf(d: Dict): Llama {
    Llama(Or(ReadInt(Get(d, NGpuLayers), 999), 0), Or(ReadInt(Get(d, CtxSize), 32768), 0), Or(ReadInt(Get(d, Parallel), 4), 0),
          Or(ReadInt(Get(d, BatchSize), 4096), 0), Or(ReadInt(Get(d, UbatchSize), 512), 0),
          Or(ReadStr(Get(d, CacheTypeK), "q8_0"), ""), Or(ReadStr(Get(d, CacheTypeV), "q8_0"), ""),
          Or(ReadBool(Get(d, FlashAttn), true), false), Or(ReadInt(Get(d, Threads), 8), 0),
          Or(ReadInt(Get(d, ThreadsHttp), 4), 0), Or(ReadBool(Get(d, CpuMoe), false), false))
  }

  function ReadLlamaDict(d: Dict): Option<Llama> {
    if (forall k :: k in d ==> LlamaKey(k)) && LlamaFields(d, LlamaOf(d)) && LlamaOk(LlamaOf(d)) then Some(LlamaOf(d)) else None
  }

  function ReadLlama(v: Option<Value>): Option<Llama> {
    if v.None? then ReadLlamaDict(map[]) else if v.value.VMap? then ReadLlamaDict(v.value.entries) else None
  }

  predicate SpecKey(k: Key) { k in {SpecType, DraftMax, DraftMin, DraftPMin} }

  predicate SpecOk(s: Spec) {
    s.kind == "mtp" && s.draftMax >= 1 && 0 <= s.draftMin <= s.draftMax && 0.0 <= s.pMin <= 1.0
  }

  predicate SpecFields(d: Dict, s: Spec) {
    && ReadStr(Get(d, SpecType), "mtp") == Some(s.kind) && ReadInt(Get(d, DraftMax), 16) == Some(s.draftMax)
    && ReadInt(Get(d, DraftMin), 0) == Some(s.draftMin) && ReadNum(Get(d, DraftPMin), 0.0) == Some(s.pMin)
  }

  function SpecOf(d: Dict): Spec {
    Spec(Or(ReadStr(Get(d, SpecType), "mtp"), ""), Or(ReadInt(Get(d, DraftMax), 16), 0), Or(ReadInt(Get(d, DraftMin), 0), 0),
         Or(ReadNum(Get(d, DraftPMin), 0.0), 0.0))
  }

  function ReadSpecDict(d: Dict): Option<Spec> {
    if (forall k :: k in d ==> SpecKey(k)) && SpecFields(d, SpecOf(d)) && SpecOk(SpecOf(d)) then Some(SpecOf(d)) else None
  }

  function ReadSpec(v: Option<Value>): Option<Option<Spec>> {
    if v.None? || v.value.VNull? then Some(None)
    else if v.value.VMap? && ReadSpecDict(v.value.entries).Some? then Some(ReadSpecDict(v.value.entries)) else None
  }

  // ---------------------------------------------------------------- the entry

  predicate EntryKey(k: Key) {
    k in {Id, Path, Description, VramGb, Enabled, Capabilities, LlamaParams, MmprojPath, MmprojSha256, LoadTimeout, Speculative, Sha256}
  }

  /** Every field of m is what is read in d. */
  predicate Fields(d: Dict, m: Model, p: Paths) {
    && ReadId(Get(d, Id)) == Some(m.id) && ReadPath(Get(d, Path), p) == Some(m.path)
    && ReadDescription(Get(d, Description)) == Some(m.description) && ReadVram(Get(d, VramGb)) == Some(m.vram)
    && ReadBool(Get(d, Enabled), true) == Some(m.enabled) && ReadCapabilities(Get(d, Capabilities)) == Some(m.capabilities)
    && ReadLlama(Get(d, LlamaParams)) == Some(m.llama) && ReadMmproj(Get(d, MmprojPath), p) == Some(m.mmproj)
    && ReadTimeout(Get(d, LoadTimeout)) == Some(m.timeout) && ReadSpec(Get(d, Speculative)) == Some(m.spec)
    && ReadSha(Get(d, Sha256)) == Some(m.sha) && ReadSha(Get(d, MmprojSha256)) == Some(m.mmprojSha)
  }

  predicate CrossOk(m: Model) {
    if "vision" in m.capabilities then m.mmproj.Some? && m.mmprojSha.Some? else m.mmprojSha.Some? ==> m.mmproj.Some?
  }

  const DEFAULT_LLAMA := Llama(999, 32768, 4, 4096, 512, "q8_0", "q8_0", true, 8, 4, false)

  function ModelOf(d: Dict, p: Paths): Model {
    Model(Or(ReadId(Get(d, Id)), ""), Or(ReadPath(Get(d, Path), p), ""), Or(ReadDescription(Get(d, Description)), ""),
          Or(ReadVram(Get(d, VramGb)), NonFinite), Or(ReadBool(Get(d, Enabled), true), false),
          Or(ReadCapabilities(Get(d, Capabilities)), []), Or(ReadLlama(Get(d, LlamaParams)), DEFAULT_LLAMA),
          Or(ReadMmproj(Get(d, MmprojPath), p), None), Or(ReadTimeout(Get(d, LoadTimeout)), None),
          Or(ReadSpec(Get(d, Speculative)), None), Or(ReadSha(Get(d, Sha256)), None), Or(ReadSha(Get(d, MmprojSha256)), None))
  }

  /** _parse_entry; None is any ValueError. */
  function ParseEntry(v: Value, p: Paths): Option<Model> {
    if v.VMap? && (forall k :: k in v.entries ==> EntryKey(k)) && Fields(v.entries, ModelOf(v.entries, p), p)
       && CrossOk(ModelOf(v.entries, p)) then Some(ModelOf(v.entries, p)) else None
  }

  /** Parsing is reading every field: the stand-ins never matter. */
  lemma ParseIsReading(d: Dict, m: Model, p: Paths)
    ensures ParseEntry(VMap(d), p) == Some(m) <==> (forall k :: k in d ==> EntryKey(k)) && Fields(d, m, p) && CrossOk(m)
  {
    hide EntryKey, CrossOk, ReadId, ReadPath, ReadDescription, ReadVram, ReadBool, ReadCapabilities, ReadLlama, ReadMmproj,
      ReadTimeout, ReadSpec, ReadSha;
  }

  // ---------------------------------------------------------------- printing

  /** What to_dict writes under each key of llama_params: cpu_moe only when it is set. */
  function LlamaPrint(l: Llama, k: Key): Option<Value> {
    match k
    case NGpuLayers => Some(VInt(l.nGpuLayers))
    case CtxSize => Some(VInt(l.ctxSize))
    case Parallel => Some(VInt(l.parallel))
    case BatchSize => Some(VInt(l.batch))
    case UbatchSize => Some(VInt(l.ubatch))
    case CacheTypeK => Some(VStr(l.cacheK))
    case CacheTypeV => Some(VStr(l.cacheV))
    case FlashAttn => Some(VBool(l.flash))
    case Threads => Some(VInt(l.threads))
    case ThreadsHttp => Some(VInt(l.threadsHttp))
    case CpuMoe => if l.cpuMoe then Some(VBool(true)) else None
    case _ => None
  }

  const LLAMA_KEYS: set<Key> :=
    {NGpuLayers, CtxSize, Parallel, BatchSize, UbatchSize, CacheTypeK, CacheTypeV, FlashAttn, Threads, ThreadsHttp, CpuMoe}

  function LlamaDict(l: Llama): (d: Dict)
    ensures forall k :: Get(d, k) == LlamaPrint(l, k)
  {
    map k | k in LLAMA_KEYS && LlamaPrint(l, k).Some? :: LlamaPrint(l, k).value
  }

  function SpecDict(s: Spec): Dict {
    map[SpecType := VStr(s.kind), DraftMax := VInt(s.draftMax), DraftMin := VInt(s.draftMin), DraftPMin := VFloat(s.pMin)]
  }

  function Words(s: seq<string>): (r: seq<Value>)
    ensures |r| == |s| && forall i :: 0 <= i < |s| ==> r[i] == VStr(s[i])
  {
    seq(|s|, i requires 0 <= i < |s| => VStr(s[i]))
  }

  function PrintStr(s: Option<string>): Option<Value> { if s.Some? then Some(VStr(s.value)) else None }
  function PrintInt(i: Option<int>): Option<Value> { if i.Some? then Some(VInt(i.value)) else None }
  function PrintSpec(s: Option<Spec>): Option<Value> { if s.Some? then Some(VMap(SpecDict(s.value))) else None }

  /** What to_dict writes under each key; None where it writes nothing. */
  function Print(m: Model, k: Key): Option<Value> {
    match k
    case Id => Some(VStr(m.id))
    case Path => Some(VStr(m.path))
    case Description => Some(VStr(m.description))
    case VramGb => Some(if m.vram.Finite? then VFloat(m.vram.r) else VNonFinite)
    case Enabled => Some(VBool(m.enabled))
    case Capabilities => Some(VList(Words(m.capabilities)))
    case LlamaParams => Some(VMap(LlamaDict(m.llama)))
    case MmprojPath => PrintStr(m.mmproj)
    case LoadTimeout => PrintInt(m.timeout)
    case Sha256 => PrintStr(m.sha)
    case MmprojSha256 => PrintStr(m.mmprojSha)
    case Speculative => PrintSpec(m.spec)
    case _ => None
  }

  const ENTRY_KEYS: set<Key> :=
    {Id, Path, Description, VramGb, Enabled, Capabilities, LlamaParams, MmprojPath, MmprojSha256, LoadTimeout, Speculative, Sha256}

  function ToDict(m: Model): (d: Dict)
    ensures forall k :: Get(d, k) == Print(m, k)
  {
    map k | k in ENTRY_KEYS && Print(m, k).Some? :: Print(m, k).value
  }

  // ---------------------------------------------------------------- the round trip

  /** The models that mean what they print. */
  predicate Valid(m: Model, p: Paths) {
    && IdOk(m.id) && m.path != "" && p.ok(m.path) && p.norm(m.path) == m.path && |m.description| <= 200 && SizeOk(m.vram)
    && m.capabilities != [] && (forall i :: 0 <= i < |m.capabilities| ==> KnownCapability(m.capabilities[i]))
    && LlamaOk(m.llama)
    && (m.mmproj.Some? ==> m.mmproj.value != "" && p.ok(m.mmproj.value) && p.norm(m.mmproj.value) == m.mmproj.value)
    && (m.timeout.Some? ==> m.timeout.value >= 30) && (m.spec.Some? ==> SpecOk(m.spec.value))
    && (m.sha.Some? ==> LowerHex(m.sha.value)) && (m.mmprojSha.Some? ==> LowerHex(m.mmprojSha.value)) && CrossOk(m)
  }

  predicate LowerHex(s: string) { Hex64(s) && Lower(s) == s }

  lemma {:induction false} StripHex(s: string)
    requires Hex64(s)
    ensures Strip(s) == s
  {
  }

  lemma LowerIsLowerHex(s: string)
    requires Hex64(s)
    ensures LowerHex(Lower(s))
  {
    assert Lower(Lower(s)) == Lower(s);
  }

  /** What is read under one key of llama_params, as a statement about the parameters. */
  predicate LlamaRead(v: Option<Value>, k: Key, l: Llama) {
    match k
    case NGpuLayers => ReadInt(v, 999) == Some(l.nGpuLayers)
    case CtxSize => ReadInt(v, 32768) == Some(l.ctxSize)
    case Parallel => ReadInt(v, 4) == Some(l.parallel)
    case BatchSize => ReadInt(v, 4096) == Some(l.batch)
    case UbatchSize => ReadInt(v, 512) == Some(l.ubatch)
    case CacheTypeK => ReadStr(v, "q8_0") == Some(l.cacheK)
    case CacheTypeV => ReadStr(v, "q8_0") == Some(l.cacheV)
    case FlashAttn => ReadBool(v, true) == Some(l.flash)
    case Threads => ReadInt(v, 8) == Some(l.threads)
    case ThreadsHttp => ReadInt(v, 4) == Some(l.threadsHttp)
    case CpuMoe => ReadBool(v, false) == Some(l.cpuMoe)
    case _ => true
  }

  lemma LlamaFieldsAreReads(d: Dict, l: Llama)
    ensures LlamaFields(d, l) <==> forall k :: LlamaRead(Get(d, k), k, l)
  {
    hide ReadInt, ReadStr, ReadBool, Get;
    if forall k :: LlamaRead(Get(d, k), k, l) {
      assert LlamaRead(Get(d, NGpuLayers), NGpuLayers, l) && LlamaRead(Get(d, CtxSize), CtxSize, l);
      assert LlamaRead(Get(d, Parallel), Parallel, l) && LlamaRead(Get(d, BatchSize), BatchSize, l);
      assert LlamaRead(Get(d, UbatchSize), UbatchSize, l) && LlamaRead(Get(d, CacheTypeK), CacheTypeK, l);
      assert LlamaRead(Get(d, CacheTypeV), CacheTypeV, l) && LlamaRead(Get(d, FlashAttn), FlashAttn, l);
      assert LlamaRead(Get(d, Threads), Threads, l) && LlamaRead(Get(d, ThreadsHttp), ThreadsHttp, l);
      assert LlamaRead(Get(d, CpuMoe), CpuMoe, l);
    }
  }

  lemma LlamaIsReading(d: Dict, l: Llama)
    ensures ReadLlamaDict(d) == Some(l) <==> (forall k :: k in d ==> LlamaKey(k)) && LlamaFields(d, l) && LlamaOk(l)
  {
    hide LlamaKey, LlamaOk, ReadInt, ReadStr, ReadBool, Get;
  }

  lemma LlamaKeysPrinted(l: Llama)
    ensures forall k :: k in LlamaDict(l) ==> LlamaKey(k)
  {
    forall k | k in LlamaDict(l) ensures LlamaKey(k) { assert Get(LlamaDict(l), k) == LlamaPrint(l, k); }
  }

  lemma LlamaRoundTrip(l: Llama)
    ensures ReadLlama(Some(VMap(LlamaDict(l)))) == Some(l) <==> LlamaOk(l)
    ensures ReadLlamaDict(LlamaDict(l)) == Some(l) <==> LlamaOk(l)
  {
    hide LlamaDict, LlamaOk, LlamaFields, ReadLlamaDict, LlamaKey;
    LlamaIsReading(LlamaDict(l), l);
    LlamaFieldsAreReads(LlamaDict(l), l);
    LlamaKeysPrinted(l);
    forall k ensures LlamaRead(Get(LlamaDict(l), k), k, l) {}
  }

  lemma SpecRoundTrip(s: Spec)
    ensures ReadSpec(Some(VMap(SpecDict(s)))) == if SpecOk(s) then Some(Some(s)) else None
  {
    hide SpecOk;
  }

  lemma CapabilitiesRoundTrip(c: seq<string>)
    ensures ReadCapabilities(Some(VList(Words(c)))) ==
            if c != [] && (forall i :: 0 <= i < |c| ==> KnownCapability(c[i])) then Some(c) else None
  {
    hide KnownCapability;
    if c != [] && (forall i :: 0 <= i < |c| ==> KnownCapability(c[i])) {
      assert Strings(Words(c)) == c;
    } else if c != [] {
      var i :| 0 <= i < |c| && !KnownCapability(c[i]);
      assert Words(c)[i] == VStr(c[i]);
    }
  }

  lemma ShaRoundTrip(s: string)
    ensures ReadSha(Some(VStr(s))) == Some(Some(s)) <==> LowerHex(s)
  {
    if Hex64(Strip(s)) {
      LowerIsLowerHex(Strip(s));
    }
    if LowerHex(s) { StripHex(s); }
  }

  /** What is read under one key, as a statement about the model. */
  predicate FieldRead(v: Option<Value>, k: Key, m: Model, p: Paths) {
    match k
    case Id => ReadId(v) == Some(m.id)
    case Path => ReadPath(v, p) == Some(m.path)
    case Description => ReadDescription(v) == Some(m.description)
    case VramGb => ReadVram(v) == Some(m.vram)
    case Enabled => ReadBool(v, true) == Some(m.enabled)
    case Capabilities => ReadCapabilities(v) == Some(m.capabilities)
    case LlamaParams => ReadLlama(v) == Some(m.llama)
    case MmprojPath => ReadMmproj(v, p) == Some(m.mmproj)
    case LoadTimeout => ReadTimeout(v) == Some(m.timeout)
    case Speculative => ReadSpec(v) == Some(m.spec)
    case Sha256 => ReadSha(v) == Some(m.sha)
    case MmprojSha256 => ReadSha(v) == Some(m.mmprojSha)
    case _ => true
  }

  lemma FieldsAreReads(d: Dict, m: Model, p: Paths)
    ensures Fields(d, m, p) <==> forall k :: FieldRead(Get(d, k), k, m, p)
  {
    hide ReadId, ReadPath, ReadDescription, ReadVram, ReadBool, ReadCapabilities, ReadLlama, ReadMmproj, ReadTimeout, ReadSpec, ReadSha, Get;
    if forall k :: FieldRead(Get(d, k), k, m, p) {
      assert FieldRead(Get(d, Id), Id, m, p) && FieldRead(Get(d, Path), Path, m, p) && FieldRead(Get(d, Description), Description, m, p);
      assert FieldRead(Get(d, VramGb), VramGb, m, p) && FieldRead(Get(d, Enabled), Enabled, m, p);
      assert FieldRead(Get(d, Capabilities), Capabilities, m, p) && FieldRead(Get(d, LlamaParams), LlamaParams, m, p);
      assert FieldRead(Get(d, MmprojPath), MmprojPath, m, p) && FieldRead(Get(d, LoadTimeout), LoadTimeout, m, p);
      assert FieldRead(Get(d, Speculative), Speculative, m, p) && FieldRead(Get(d, Sha256), Sha256, m, p);
      assert FieldRead(Get(d, MmprojSha256), MmprojSha256, m, p);
    }
  }

  /** The part of Valid that is about one key. */
  predicate FieldValid(m: Model, k: Key, p: Paths) {
    match k
    case Id => IdOk(m.id)
    case Path => PathValid(m.path, p)
    case Description => |m.description| <= 200
    case VramGb => SizeOk(m.vram)
    case Capabilities => m.capabilities != [] && forall i :: 0 <= i < |m.capabilities| ==> KnownCapability(m.capabilities[i])
    case LlamaParams => LlamaOk(m.llama)
    case MmprojPath => m.mmproj.Some? ==> PathValid(m.mmproj.value, p)
    case LoadTimeout => m.timeout.Some? ==> m.timeout.value >= 30
    case Speculative => m.spec.Some? ==> SpecOk(m.spec.value)
    case Sha256 => m.sha.Some? ==> LowerHex(m.sha.value)
    case MmprojSha256 => m.mmprojSha.Some? ==> LowerHex(m.mmprojSha.value)
    case _ => true
  }

  predicate PathValid(s: string, p: Paths) { s != "" && p.ok(s) && p.norm(s) == s }

  lemma ValidIsFields(m: Model, p: Paths)
    ensures Valid(m, p) <==> CrossOk(m) && forall k :: FieldValid(m, k, p)
  {
    hide IdOk, LlamaOk, SpecOk, LowerHex, KnownCapability, CrossOk;
    if forall k :: FieldValid(m, k, p) {
      assert FieldValid(m, Id, p) && FieldValid(m, Path, p) && FieldValid(m, Description, p) && FieldValid(m, VramGb, p);
      assert FieldValid(m, Capabilities, p) && FieldValid(m, LlamaParams, p) && FieldValid(m, MmprojPath, p);
      assert FieldValid(m, LoadTimeout, p) && FieldValid(m, Speculative, p) && FieldValid(m, Sha256, p) && FieldValid(m, MmprojSha256, p);
    }
  }

  /** Key by key: what is printed reads back to the same field, exactly when that field is valid. */
  lemma PrintReads(m: Model, k: Key, p: Paths)
    ensures FieldRead(Print(m, k), k, m, p) <==> FieldValid(m, k, p)
  {
    hide ReadSpec, ReadSha, ReadLlama, ReadCapabilities, LlamaDict, SpecDict, Words, IdOk, LlamaOk, SpecOk, LowerHex, KnownCapability;
    match k
    case LlamaParams => LlamaRoundTrip(m.llama);
    case Capabilities => CapabilitiesRoundTrip(m.capabilities);
    case Speculative => if m.spec.Some? { SpecRoundTrip(m.spec.value); } else { NothingRead(); }
    case Sha256 => if m.sha.Some? { ShaRoundTrip(m.sha.value); } else { NothingRead(); }
    case MmprojSha256 => if m.mmprojSha.Some? { ShaRoundTrip(m.mmprojSha.value); } else { NothingRead(); }
    case _ =>
  }

  lemma NothingRead()
    ensures ReadSpec(None) == Some(None) && ReadSha(None) == Some(None)
  {
  }

  lemma PrintedKeys(m: Model)
    ensures forall k :: k in ToDict(m) ==> EntryKey(k)
  {
    forall k | k in ToDict(m) ensures EntryKey(k) { assert Get(ToDict(m), k) == Print(m, k); }
  }

  /** Printing a model and parsing it back gives that model, exactly when the model is valid. */
  lemma RoundTrip(m: Model, p: Paths)
    ensures ParseEntry(VMap(ToDict(m)), p) == Some(m) <==> Valid(m, p)
  {
    hide Valid, ParseEntry, Fields, FieldRead, FieldValid, Print, CrossOk, EntryKey, ToDict, Get;
    PrintedKeys(m);
    ParseIsReading(ToDict(m), m, p);
    FieldsAreReads(ToDict(m), m, p);
    ValidIsFields(m, p);
    forall k ensures FieldRead(Get(ToDict(m), k), k, m, p) <==> FieldValid(m, k, p) { PrintReads(m, k, p); }
  }

  lemma ReadCapabilitiesValid(v: Option<Value>)
    ensures ReadCapabilities(v).Some? ==>
              var c := ReadCapabilities(v).value; c != [] && forall i :: 0 <= i < |c| ==> KnownCapability(c[i])
  {
  }

  lemma ReadShaValid(v: Option<Value>)
    ensures ReadSha(v).Some? && ReadSha(v).value.Some? ==> LowerHex(ReadSha(v).value.value)
  {
    if ReadSha(v).Some? && ReadSha(v).value.Some? { LowerIsLowerHex(Strip(v.value.s)); }
    hide Strip, LowerHex, Lower, Hex64;
  }

  /** Whatever is parsed is valid, so that it survives printing and parsing. */
  lemma ParsedIsValid(v: Value, p: Paths)
    requires Sound(p) && ParseEntry(v, p).Some?
    ensures Valid(ParseEntry(v, p).value, p)
    ensures ParseEntry(VMap(ToDict(ParseEntry(v, p).value)), p) == ParseEntry(v, p)
  {
    var m := ParseEntry(v, p).value;
    var d := v.entries;
    ReadCapabilitiesValid(Get(d, Capabilities));
    ReadShaValid(Get(d, Sha256));
    ReadShaValid(Get(d, MmprojSha256));
    ParsedPieces(d, m, p);
    RoundTrip(m, p);
  }

  lemma ParsedPieces(d: Dict, m: Model, p: Paths)
    requires Sound(p) && Fields(d, m, p) && CrossOk(m)
    ensures Valid(m, p)
  {
    ReadCapabilitiesValid(Get(d, Capabilities));
    ReadShaValid(Get(d, Sha256));
    ReadShaValid(Get(d, MmprojSha256));
    hide IdOk, CrossOk, LlamaFields, LlamaOf, LlamaOk, SpecFields, SpecOf, SpecOk, ReadSha, LowerHex, ReadCapabilities, KnownCapability;
  }

  // ---------------------------------------------------------------- what an entry says

  /** A number is written as a fraction or as an integer. */
  predicate NumberSays(v: Value, r: real) { v == VFloat(r) || (v.VInt? && v.i as real == r) }

  predicate PathSays(v: Value, s: string, p: Paths) { v.VStr? && v.s != "" && p.ok(v.s) && s == p.norm(v.s) }

  predicate Blank(s: string) { forall i :: 0 <= i < |s| ==> Space(s[i]) }

  /** s is the digest in small letters, between blanks and in any letters. */
  ghost predicate DigestSays(s: string, digest: string) {
    exists a, core, b :: s == a + core + b && Blank(a) && Blank(b) && Hex64(core) && digest == Lower(core)
  }

  /** What one key of llama_params says: the value under it, or a default without it. */
  predicate LlamaSays(v: Option<Value>, k: Key, l: Llama) {
    match k
    case NGpuLayers => if v.None? then l.nGpuLayers == 999 else v.value == VInt(l.nGpuLayers)
    case CtxSize => if v.None? then l.ctxSize == 32768 else v.value == VInt(l.ctxSize)
    case Parallel => if v.None? then l.parallel == 4 else v.value == VInt(l.parallel)
    case BatchSize => if v.None? then l.batch == 4096 else v.value == VInt(l.batch)
    case UbatchSize => if v.None? then l.ubatch == 512 else v.value == VInt(l.ubatch)
    case CacheTypeK => if v.None? then l.cacheK == "q8_0" else v.value == VStr(l.cacheK)
    case CacheTypeV => if v.None? then l.cacheV == "q8_0" else v.value == VStr(l.cacheV)
    case FlashAttn => if v.None? then l.flash else v.value == VBool(l.flash)
    case Threads => if v.None? then l.threads == 8 else v.value == VInt(l.threads)
    case ThreadsHttp => if v.None? then l.threadsHttp == 4 else v.value == VInt(l.threadsHttp)
    case CpuMoe => if v.None? then !l.cpuMoe else v.value == VBool(l.cpuMoe)
    case _ => v.None?
  }

  ghost predicate LlamaMeans(d: Dict, l: Llama) { LlamaOk(l) && forall k :: LlamaSays(Get(d, k), k, l) }

  predicate SpecMeans(d: Dict, s: Spec) {
    && (forall k :: k in d ==> k == SpecType || k == DraftMax || k == DraftMin || k == DraftPMin)
    && (if SpecType in d then d[SpecType] == VStr(s.kind) else s.kind == "mtp")
    && (if DraftMax in d then d[DraftMax] == VInt(s.draftMax) else s.draftMax == 16)
    && (if DraftMin in d then d[DraftMin] == VInt(s.draftMin) else s.draftMin == 0)
    && (if DraftPMin in d then NumberSays(d[DraftPMin], s.pMin) else s.pMin == 0.0)
    && s.kind == "mtp" && s.draftMax >= 1 && 0 <= s.draftMin <= s.draftMax && 0.0 <= s.pMin <= 1.0
  }

  ghost predicate SpecSays(v: Option<Value>, spec: Option<Spec>) {
    if v.None? || v.value == VNull then spec == None else v.value.VMap? && spec.Some? && SpecMeans(v.value.entries, spec.value)
  }

  ghost predicate ShaSays(v: Option<Value>, sha: Option<string>) {
    if v.None? || v.value == VNull then sha == None else v.value.VStr? && sha.Some? && DigestSays(v.value.s, sha.value)
  }

  ghost predicate LlamaParamsSay(v: Option<Value>, l: Llama) {
    if v.None? then l == Llama(999, 32768, 4, 4096, 512, "q8_0", "q8_0", true, 8, 4, false)
    else v.value.VMap? && LlamaMeans(v.value.entries, l)
  }

  /** What one key of the entry says. */
  ghost predicate FieldSays(v: Option<Value>, k: Key, m: Model, p: Paths) {
    match k
    case Id => v == Some(VStr(m.id)) && IdOk(m.id)
    case Path => v.Some? && PathSays(v.value, m.path, p)
    case Description => if v.None? then m.description == "" else v.value == VStr(m.description) && |m.description| <= 200
    case VramGb => v.Some? && m.vram.Finite? && m.vram.r > 0.0 && NumberSays(v.value, m.vram.r)
    case Enabled => if v.None? then m.enabled else v.value == VBool(m.enabled)
    case Capabilities =>
      if v.None? then m.capabilities == ["text_generation"]
      else v.value == VList(Words(m.capabilities)) && m.capabilities != []
           && forall i :: 0 <= i < |m.capabilities| ==> KnownCapability(m.capabilities[i])
    case LlamaParams => LlamaParamsSay(v, m.llama)
    case MmprojPath => if v.None? || v.value == VNull then m.mmproj == None else m.mmproj.Some? && PathSays(v.value, m.mmproj.value, p)
    case LoadTimeout =>
      if v.None? || v.value == VNull then m.timeout == None else m.timeout.Some? && v.value == VInt(m.timeout.value) && m.timeout.value >= 30
    case Speculative => SpecSays(v, m.spec)
    case Sha256 => ShaSays(v, m.sha)
    case MmprojSha256 => ShaSays(v, m.mmprojSha)
    case _ => v.None?
  }

  lemma {:induction false} StripIs(s: string) returns (a: string, b: string)
    ensures s == a + Strip(s) + b && Blank(a) && Blank(b)
    decreases |s|
  {
    if s == "" || (!Space(s[0]) && !Space(s[|s| - 1])) {
      a, b := "", "";
    } else if Space(s[0]) {
      a, b := StripIs(s[1..]);
      a := [s[0]] + a;
      assert s == [s[0]] + s[1..];
    } else {
      a, b := StripIs(s[..|s| - 1]);
      b := b + [s[|s| - 1]];
      assert s == s[..|s| - 1] + [s[|s| - 1]];
    }
  }

  lemma {:induction false} StripBlanks(a: string, core: string, b: string)
    requires Blank(a) && Blank(b) && core != "" && !Space(core[0]) && !Space(core[|core| - 1])
    ensures Strip(a + core + b) == core
    decreases |a| + |b|
  {
    var s := a + core + b;
    if a != "" {
      assert s[1..] == a[1..] + core + b;
      StripBlanks(a[1..], core, b);
    } else if b != "" {
      assert s[..|s| - 1] == a + core + b[..|b| - 1];
      StripBlanks(a, core, b[..|b| - 1]);
    } else {
      assert s == core;
    }
  }

  lemma DigestIsStripped(s: string, digest: string)
    ensures DigestSays(s, digest) <==> Hex64(Strip(s)) && digest == Lower(Strip(s))
  {
    hide Strip, Lower;
    if DigestSays(s, digest) {
      var a, core, b :| s == a + core + b && Blank(a) && Blank(b) && Hex64(core) && digest == Lower(core);
      StripBlanks(a, core, b);
    }
    if Hex64(Strip(s)) && digest == Lower(Strip(s)) {
      var a, b := StripIs(s);
    }
  }

  lemma ShaReads(v: Option<Value>, sha: Option<string>)
    ensures ReadSha(v) == Some(sha) <==> ShaSays(v, sha)
  {
    hide Strip, Lower, Hex64, DigestSays;
    if v.Some? && v.value.VStr? {
      DigestIsStripped(v.value.s, if sha.Some? then sha.value else "");
      DigestIsStripped(v.value.s, Lower(Strip(v.value.s)));
    }
  }

  lemma LlamaReads(d: Dict, l: Llama)
    ensures ReadLlamaDict(d) == Some(l) <==> LlamaMeans(d, l)
  {
    LlamaIsReading(d, l);
    LlamaFieldsAreReads(d, l);
    forall k ensures LlamaSays(Get(d, k), k, l) <==> LlamaRead(Get(d, k), k, l) && (k in d ==> LlamaKey(k)) { LlamaReadSays(Get(d, k), k, l); }
    hide LlamaOk, LlamaFields, ReadLlamaDict, LlamaRead, LlamaSays, LlamaKey, Get;
  }

  lemma LlamaReadSays(v: Option<Value>, k: Key, l: Llama)
    ensures LlamaSays(v, k, l) <==> LlamaRead(v, k, l) && (v.Some? ==> LlamaKey(k))
  {
  }

  lemma LlamaParamsRead(v: Option<Value>, l: Llama)
    ensures ReadLlama(v) == Some(l) <==> LlamaParamsSay(v, l)
  {
    if v.None? {
      NothingSaid();
    } else if v.value.VMap? {
      hide ReadLlamaDict, LlamaMeans;
      LlamaReads(v.value.entries, l);
    }
  }

  lemma NothingSaid()
    ensures ReadLlamaDict(map[]) == Some(Llama(999, 32768, 4, 4096, 512, "q8_0", "q8_0", true, 8, 4, false))
  {
  }

  lemma SpecReads(v: Option<Value>, spec: Option<Spec>)
    ensures ReadSpec(v) == Some(spec) <==> SpecSays(v, spec)
  {
    hide ReadSpecDict, SpecMeans;
    if v.Some? && v.value.VMap? {
      SpecDictReads(v.value.entries, if spec.Some? then spec.value else Spec("", 0, 0, 0.0));
      if ReadSpecDict(v.value.entries).Some? { SpecDictReads(v.value.entries, ReadSpecDict(v.value.entries).value); }
    }
  }

  lemma SpecDictReads(d: Dict, s: Spec)
    ensures ReadSpecDict(d) == Some(s) <==> SpecMeans(d, s)
  {
    SpecIsReading(d, s);
    StrReads(Get(d, SpecType), "mtp", s.kind);
    IntReads(Get(d, DraftMax), 16, s.draftMax);
    IntReads(Get(d, DraftMin), 0, s.draftMin);
    NumReads(Get(d, DraftPMin), 0.0, s.pMin);
    hide ReadSpecDict, SpecOf, ReadStr, ReadInt, ReadNum, NumberSays;
  }

  lemma StrReads(v: Option<Value>, default: string, s: string)
    ensures ReadStr(v, default) == Some(s) <==> if v.None? then s == default else v.value == VStr(s)
  {
  }

  lemma IntReads(v: Option<Value>, default: int, i: int)
    ensures ReadInt(v, default) == Some(i) <==> if v.None? then i == default else v.value == VInt(i)
  {
  }

  lemma NumReads(v: Option<Value>, default: real, r: real)
    ensures ReadNum(v, default) == Some(r) <==> if v.None? then r == default else NumberSays(v.value, r)
  {
  }

  lemma SpecIsReading(d: Dict, s: Spec)
    ensures ReadSpecDict(d) == Some(s) <==> (forall k :: k in d ==> SpecKey(k)) && SpecFields(d, s) && SpecOk(s)
  {
    hide SpecKey, SpecOk, ReadInt, ReadStr, ReadNum, Get;
  }

  lemma CapabilitiesRead(v: Option<Value>, c: seq<string>)
    ensures ReadCapabilities(v) == Some(c) <==>
            if v.None? then c == ["text_generation"]
            else v.value == VList(Words(c)) && c != [] && forall i :: 0 <= i < |c| ==> KnownCapability(c[i])
  {
    hide KnownCapability;
    CapabilitiesRoundTrip(c);
    if ReadCapabilities(v) == Some(c) && v.Some? { assert v.value.items == Words(c); }
  }

  /** Key by key: what is read is what is said. */
  lemma ReadSays(v: Option<Value>, k: Key, m: Model, p: Paths)
    ensures FieldSays(v, k, m, p) <==> FieldRead(v, k, m, p) && (v.Some? ==> EntryKey(k))
  {
    hide ReadLlama, LlamaParamsSay, ReadSpec, SpecSays, ReadSha, ShaSays, ReadCapabilities, KnownCapability, IdOk;
    match k
    case Capabilities => CapabilitiesRead(v, m.capabilities);
    case LlamaParams => LlamaParamsRead(v, m.llama);
    case Speculative => SpecReads(v, m.spec);
    case Sha256 => ShaReads(v, m.sha);
    case MmprojSha256 => ShaReads(v, m.mmprojSha);
    case _ =>
  }

  /** An entry is accepted as m if and only if every key that it has is known and says what m has, every key that
      it lacks has its default in m, and the capabilities agree with the projector. */
  lemma ParseMeans(d: Dict, m: Model, p: Paths)
    ensures ParseEntry(VMap(d), p) == Some(m) <==> (forall k :: FieldSays(Get(d, k), k, m, p)) && CrossOk(m)
  {
    hide ParseEntry, FieldSays, FieldRead, Fields, EntryKey, CrossOk;
    ParseIsReading(d, m, p);
    FieldsAreReads(d, m, p);
    forall k ensures FieldSays(Get(d, k), k, m, p) <==> FieldRead(Get(d, k), k, m, p) && (k in d ==> EntryKey(k)) {
      ReadSays(Get(d, k), k, m, p);
    }
    hide Get;
  }

  /** The smallest entry: an identifier, a path and a size; everything else has its default. */
  lemma MinimalEntry(id: string, path: string, gb: int, p: Paths)
    requires IdMatch(id) && path != "" && p.ok(path) && gb > 0
    ensures ParseEntry(VMap(map[Id := VStr(id), Path := VStr(path), VramGb := VInt(gb)]), p)
            == Some(Model(id, p.norm(path), "", Finite(gb as real), true, ["text_generation"],
                          Llama(999, 32768, 4, 4096, 512, "q8_0", "q8_0", true, 8, 4, false), None, None, None, None, None))
  {
    var d := map[Id := VStr(id), Path := VStr(path), VramGb := VInt(gb)];
    var m := Model(id, p.norm(path), "", Finite(gb as real), true, ["text_generation"],
                   Llama(999, 32768, 4, 4096, 512, "q8_0", "q8_0", true, 8, 4, false), None, None, None, None, None);
    hide ParseEntry, IdMatch;
    ParseMeans(d, m, p);
    forall k ensures FieldSays(Get(d, k), k, m, p) {}
  }

  /** Which identifiers there are, at the edges of the pattern. */
  lemma IdentifierEdges(s: string)
    ensures IdOk("a") && IdOk("0.b_c-d") && !IdOk("") && !IdOk("-a") && !IdOk("A") && !IdOk("a b")
    ensures IdOk("a\n") && !IdOk("a\n\n") && !IdOk("\n")
    ensures (forall i :: 0 <= i < |s| ==> s[i] == 'a') ==> (IdOk(s) <==> 1 <= |s| <= 63)
  {
    assert "-a"[0] == '-' && "A"[0] == 'A' && "a b"[1] == ' ' && "a\n\n"[1] == '\n' && "a\n\n"[..2][1] == '\n';
    assert "a\n"[..1] == "a" && "\n"[..0] == "";
    if |s| > 0 { assert s[0] in s; }
  }
}
