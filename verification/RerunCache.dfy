/** The content-addressed cache of fetched recordings: which files to evict, and fetches that
    run beside one another over one directory. */
module RerunCache {
  import opened Options
  import opened Sorting

  // ---- Eviction -----------------------------------------------------------------------------

  datatype CacheEntry = CacheEntry(name: string, size: nat, mtime: int)

  function Mtime(e: CacheEntry): int {
    e.mtime
  }

  function Total(entries: seq<CacheEntry>): nat {
    if entries == [] then 0 else Total(entries[..|entries| - 1]) + entries[|entries| - 1].size
  }

  function Others(entries: seq<CacheEntry>, keep: string): (r: seq<CacheEntry>)
    ensures forall e | e in r :: e in entries && e.name != keep
    ensures forall e | e in entries && e.name != keep :: e in r
  {
    if entries == [] then [] else (if entries[0].name != keep then [entries[0]] else []) + Others(entries[1..], keep)
  }

  /** The candidates, oldest first. */
  function Candidates(entries: seq<CacheEntry>, keep: string): seq<CacheEntry> {
    SortBy(Others(entries, keep), Mtime)
  }

  function Names(entries: seq<CacheEntry>): (r: seq<string>)
    ensures |r| == |entries| && forall i | 0 <= i < |r| :: r[i] == entries[i].name
  {
    seq(|entries|, i requires 0 <= i < |entries| => entries[i].name)
  }

  /** How many of the candidates go, when `over` bytes are held beside what must stay. */
  function Cut(candidates: seq<CacheEntry>, total: int, cap: int): (n: nat)
    ensures n <= |candidates|
  {
    if candidates == [] || total <= cap then 0 else 1 + Cut(candidates[1..], total - candidates[0].size, cap)
  }

  function Victims(entries: seq<CacheEntry>, cap: int, keep: string): seq<string> {
    var c := Candidates(entries, keep);
    Names(c[..Cut(c, Total(entries), cap)])
  }

  method PruneVictims(entries: seq<CacheEntry>, cap: int, keep: string) returns (victims: seq<string>)
    ensures victims == Victims(entries, cap, keep)
  {
    hide SortBy, Others, Cut;
    var total: int := 0;
    for i := 0 to |entries|
      invariant total == Total(entries[..i])
    {
      assert entries[..i + 1][..i] == entries[..i];
      total := total + entries[i].size;
    }
    assert entries[..|entries|] == entries;
    if total <= cap {
      NothingToCut(Candidates(entries, keep), total, cap);
      return [];
    }
    victims := CutOldest(Candidates(entries, keep), total, cap);
  }

  lemma NothingToCut(c: seq<CacheEntry>, total: int, cap: int)
    requires total <= cap
    ensures Cut(c, total, cap) == 0
  {
  }

  /** The eviction loop. */
  method CutOldest(ordered: seq<CacheEntry>, held: int, cap: int) returns (victims: seq<string>)
    ensures victims == Names(ordered[..Cut(ordered, held, cap)])
  {
    var total := held;
    victims := [];
    assert ordered[0..] == ordered;
    for i := 0 to |ordered|
      invariant victims == Names(ordered[..i]) && Cut(ordered, held, cap) == i + Cut(ordered[i..], total, cap)
    {
      assert ordered[i..][0] == ordered[i] && ordered[i..][1..] == ordered[i + 1..];
      if total <= cap { return; }
      assert ordered[..i + 1] == ordered[..i] + [ordered[i]];
      victims := victims + [ordered[i].name];
      total := total - ordered[i].size;
    }
  }

  lemma {:induction false} TotalOfFirst(e: CacheEntry, s: seq<CacheEntry>)
    ensures Total([e] + s) == e.size + Total(s)
  {
    if s == [] {
      assert [e] + s == [e] && [e][..0] == [];
    } else {
      assert ([e] + s)[..|s|] == [e] + s[..|s| - 1];
      TotalOfFirst(e, s[..|s| - 1]);
    }
  }

  lemma {:induction false} CutIsLeast(c: seq<CacheEntry>, total: int, cap: int)
    ensures var n := Cut(c, total, cap);
            && (total - Total(c[..n]) <= cap || n == |c|)
            && (n > 0 ==> total - Total(c[..n - 1]) > cap)
  {
    if c != [] && total > cap {
      var n := Cut(c, total, cap);
      CutIsLeast(c[1..], total - c[0].size, cap);
      assert c[..n] == [c[0]] + c[1..][..n - 1];
      TotalOfFirst(c[0], c[1..][..n - 1]);
      if n > 1 {
        assert c[..n - 1] == [c[0]] + c[1..][..n - 2];
        TotalOfFirst(c[0], c[1..][..n - 2]);
      }
    }
  }

  lemma CandidatesAreOldestFirst(entries: seq<CacheEntry>, keep: string)
    ensures var c := Candidates(entries, keep);
            multiset(c) == multiset(Others(entries, keep)) && forall i, j | 0 <= i < j < |c| :: c[i].mtime <= c[j].mtime
  {
    SortSorts(Others(entries, keep), Mtime);
    hide SortBy, Others;
    var c := Candidates(entries, keep);
    forall i, j | 0 <= i < j < |c|
      ensures c[i].mtime <= c[j].mtime
    {
      assert Mtime(c[i]) <= Mtime(c[j]);
    }
  }

  lemma KeptIsNoVictim(entries: seq<CacheEntry>, cap: int, keep: string)
    ensures keep !in Victims(entries, cap, keep)
  {
    CandidatesAreOldestFirst(entries, keep);
    hide Candidates, Cut, Total;
    var c := Candidates(entries, keep);
    forall e | e in c
      ensures e.name != keep
    {
      assert e in multiset(c);
      assert e in Others(entries, keep);
    }
  }

  /** The kept file never goes; those that go are older than, or as old as, any other that stays;
      afterwards the cache fits or everything else is gone; and one victim fewer would not fit. */
  lemma EvictionIsMinimal(entries: seq<CacheEntry>, cap: int, keep: string)
    ensures var c := Candidates(entries, keep);
            var n := Cut(c, Total(entries), cap);
            && Victims(entries, cap, keep) == Names(c[..n])
            && multiset(c) == multiset(Others(entries, keep)) && keep !in Victims(entries, cap, keep)
            && (forall i, j | 0 <= i < n <= j < |c| :: c[i].mtime <= c[j].mtime)
            && (Total(entries) - Total(c[..n]) <= cap || n == |c|)
            && (n > 0 ==> Total(entries) - Total(c[..n - 1]) > cap)
  {
    hide Candidates, Others, Cut, Total;
    CandidatesAreOldestFirst(entries, keep);
    KeptIsNoVictim(entries, cap, keep);
    CutIsLeast(Candidates(entries, keep), Total(entries), cap);
  }

  // ---- Names ------------------------------------------------------------------------------------

  type Bytes = seq<bv8>

  /** The digest of some bytes. */
  type Hash = Bytes -> string

  predicate IsHex(c: char) {
    '0' <= c <= '9' || 'a' <= c <= 'f'
  }

  predicate IsContentDigest(s: string) {
    |s| == 64 && forall i | 0 <= i < |s| :: IsHex(s[i])
  }

  function CachedName(sha: string): string {
    sha + ".rrd"
  }

  function PartName(sha: string, suffix: string): string {
    CachedName(sha) + (".part-" + suffix)
  }

  /** The digest a file name stands for. */
  function DigestOf(name: string): Option<string> {
    if |name| == 68 && IsContentDigest(name[..64]) && name[64..] == ".rrd" then Some(name[..64]) else None
  }

  lemma NamesTellApart(sha: string, suffix: string, other: string)
    requires IsContentDigest(sha) && IsContentDigest(other)
    ensures DigestOf(CachedName(sha)) == Some(sha) && DigestOf(PartName(sha, suffix)) == None
    ensures PartName(sha, suffix) != CachedName(other)
  {
    assert CachedName(sha)[..64] == sha && CachedName(sha)[64..] == ".rrd";
    assert |PartName(sha, suffix)| > 68;
  }

  // ---- Fetches ------------------------------------------------------------------------------------

  const MAX_FETCH_BYTES := 4 * 1024 * 1024 * 1024

  datatype Result = Fetched(bytes: nat, cached: bool) | Failed

  /** Where a fetch waits. */
  datatype Phase =
    | Looking
    | MakingDir
    | Opening(suffix: string)
    | Transferring(suffix: string)
    | Renaming(suffix: string)
    | Cleaning(suffix: string)
    | Listing
    | Evicting(victims: seq<string>)
    | Over(result: Result)

  /** One call: what it asks for, what has come over the wire, and how often it has closed its
      source. `left` is the temporary file it could not remove. */
  datatype Fetch = Fetch(sha: string, size: int, phase: Phase, got: Bytes, closed: nat, left: Option<string>)

  datatype Disk = Disk(files: map<string, Bytes>, fetches: seq<Fetch>)

  datatype Event =
    | Call(sha: string, size: int)
    | Looked(i: nat)
    | DirMade(i: nat, ok: bool, suffix: string)
    | Opened(i: nat, ok: bool)
    | Chunk(i: nat, bytes: Bytes)
    | Streamed(i: nat, ok: bool)
    | Renamed(i: nat, ok: bool)
    | Cleaned(i: nat, ok: bool)
    | Listed(i: nat, entries: seq<CacheEntry>, cap: int)
    | Evicted(i: nat, ok: bool)

  function SuffixOf(p: Phase): Option<string> {
    match p
    case Opening(s) => Some(s)
    case Transferring(s) => Some(s)
    case Renaming(s) => Some(s)
    case Cleaning(s) => Some(s)
    case _ => None
  }

  /** The temporary file a fetch works on. */
  function TempOf(f: Fetch): Option<string> {
    match SuffixOf(f.phase)
    case Some(s) => Some(PartName(f.sha, s))
    case None => None
  }

  /** The random suffix collides with no file and no other fetch. */
  predicate Fresh(d: Disk, name: string) {
    name !in d.files && forall i | 0 <= i < |d.fetches| :: TempOf(d.fetches[i]) != Some(name)
  }

  predicate Possible(d: Disk, e: Event) {
    match e
    case Call(_, _) => true
    case Looked(i) => i < |d.fetches| && d.fetches[i].phase.Looking?
    case DirMade(i, ok, suffix) =>
      i < |d.fetches| && d.fetches[i].phase.MakingDir? && (ok ==> Fresh(d, PartName(d.fetches[i].sha, suffix)))
    case Opened(i, _) => i < |d.fetches| && d.fetches[i].phase.Opening?
    case Chunk(i, _) => i < |d.fetches| && d.fetches[i].phase.Transferring?
    case Streamed(i, _) => i < |d.fetches| && d.fetches[i].phase.Transferring?
    case Renamed(i, _) => i < |d.fetches| && d.fetches[i].phase.Renaming?
    case Cleaned(i, _) => i < |d.fetches| && d.fetches[i].phase.Cleaning?
    case Listed(i, _, _) => i < |d.fetches| && d.fetches[i].phase.Listing?
    case Evicted(i, _) => i < |d.fetches| && d.fetches[i].phase.Evicting? && d.fetches[i].phase.victims != []
  }

  function Finish(f: Fetch, result: Result): Fetch {
    f.(phase := Over(result), closed := f.closed + 1)
  }

  function Put(d: Disk, i: nat, f: Fetch): Disk
    requires i < |d.fetches|
  {
    d.(fetches := d.fetches[i := f])
  }

  /** The next eviction, or the end of a fetch that has its file. */
  function Evict(f: Fetch, victims: seq<string>): Fetch {
    if victims == [] then Finish(f, Fetched(|f.got|, false)) else f.(phase := Evicting(victims))
  }

  function Step(hash: Hash, d: Disk, e: Event): Disk
    requires Possible(d, e)
  {
    if e.Call? then
      var f := Fetch(e.sha, e.size, Looking, [], 0, None);
      d.(fetches := d.fetches + [if IsContentDigest(e.sha) then f else Finish(f, Failed)])
    else
      var f := d.fetches[e.i];
      match e
      case Looked(i) =>
        if CachedName(f.sha) in d.files then Put(d, i, Finish(f, Fetched(|d.files[CachedName(f.sha)]|, true)))
        else if f.size <= 0 || f.size > MAX_FETCH_BYTES then Put(d, i, Finish(f, Failed))
        else Put(d, i, f.(phase := MakingDir))
      case DirMade(i, ok, suffix) => Put(d, i, if ok then f.(phase := Opening(suffix)) else Finish(f, Failed))
      case Opened(i, ok) =>
        if ok then Put(d, i, f.(phase := Transferring(f.phase.suffix))).(files := d.files[TempOf(f).value := []])
        else Put(d, i, f.(phase := Cleaning(f.phase.suffix)))
      case Chunk(i, bytes) =>
        // Bytes written to a file that was unlinked in the meantime reach nobody.
        Put(d, i, f.(got := f.got + bytes)).(
          files := if TempOf(f).value in d.files then d.files[TempOf(f).value := d.files[TempOf(f).value] + bytes] else d.files)
      case Streamed(i, ok) =>
        Put(d, i, f.(phase := if ok && hash(f.got) == f.sha then Renaming(f.phase.suffix) else Cleaning(f.phase.suffix)))
      case Renamed(i, ok) =>
        if ok && TempOf(f).value in d.files then
          Put(d, i, f.(phase := Listing)).(files := (d.files - {TempOf(f).value})[CachedName(f.sha) := d.files[TempOf(f).value]])
        else Put(d, i, f.(phase := Cleaning(f.phase.suffix)))
      case Cleaned(i, ok) =>
        Put(d, i, Finish(f.(left := if ok then f.left else TempOf(f)), Failed)).(files := if ok then d.files - {TempOf(f).value} else d.files)
      case Listed(i, entries, cap) => Put(d, i, Evict(f, Victims(entries, cap, CachedName(f.sha))))
      case Evicted(i, ok) =>
        Put(d, i, Evict(f, f.phase.victims[1..])).(files := if ok then d.files - {f.phase.victims[0]} else d.files)
  }

  // ---- The invariant --------------------------------------------------------------------------------

  /** A file under a digest's name holds bytes that hash to it. */
  predicate Truth(hash: Hash, d: Disk) {
    forall name | name in d.files && DigestOf(name).Some? :: hash(d.files[name]) == DigestOf(name).value
  }

  /** What a fetch has transferred has been compared with its digest. */
  predicate Verified(p: Phase) {
    match p
    case Over(result) => result.Fetched? && !result.cached
    case _ => p.Renaming? || p.Listing? || p.Evicting?
  }

  predicate FetchOk(hash: Hash, d: Disk, f: Fetch) {
    && (IsContentDigest(f.sha) || f.phase == Over(Failed))
    && f.closed == (if f.phase.Over? then 1 else 0) && (f.left.Some? ==> f.phase.Over?)
    && (f.phase.Looking? || f.phase.MakingDir? || f.phase.Opening? ==> f.got == [])
    && (TempOf(f).Some? && TempOf(f).value in d.files && !f.phase.Opening? && !f.phase.Cleaning? ==> d.files[TempOf(f).value] == f.got)
    && (Verified(f.phase) ==> hash(f.got) == f.sha && (f.phase.Over? ==> f.phase.result.bytes == |f.got|))
    && (f.phase.Evicting? ==> CachedName(f.sha) !in f.phase.victims)
  }

  predicate TempsApart(d: Disk) {
    forall i, j | 0 <= i < j < |d.fetches| && TempOf(d.fetches[i]).Some? :: TempOf(d.fetches[i]) != TempOf(d.fetches[j])
  }

  predicate Inv(hash: Hash, d: Disk) {
    Truth(hash, d) && TempsApart(d) && forall i | 0 <= i < |d.fetches| :: FetchOk(hash, d, d.fetches[i])
  }

  lemma TempHasNoDigest(f: Fetch)
    requires IsContentDigest(f.sha) && TempOf(f).Some?
    ensures DigestOf(TempOf(f).value) == None
  {
    NamesTellApart(f.sha, SuffixOf(f.phase).value, f.sha);
  }

  lemma OthersKeepTheirs(hash: Hash, d: Disk, n: Disk, i: nat)
    requires Inv(hash, d) && i < |d.fetches| == |n.fetches|
    requires forall j | 0 <= j < |d.fetches| && j != i :: n.fetches[j] == d.fetches[j]
    requires forall name | name in n.files && TempOf(d.fetches[i]) != Some(name) && DigestOf(name).None? :: name in d.files && n.files[name] == d.files[name]
    ensures forall j | 0 <= j < |n.fetches| && j != i :: FetchOk(hash, n, n.fetches[j])
  {
    forall j | 0 <= j < |n.fetches| && j != i
      ensures FetchOk(hash, n, n.fetches[j])
    {
      var f := d.fetches[j];
      assert FetchOk(hash, d, f);
      if TempOf(f).Some? {
        TempHasNoDigest(f);
        assert TempOf(d.fetches[i]) != TempOf(f);
      }
    }
  }

  /** What keeps the invariant when fetch `i` moves on: its own state, its temporary file, and
      nothing new under a digest's name unless it hashes to it. */
  lemma OneMoves(hash: Hash, d: Disk, n: Disk, i: nat)
    requires Inv(hash, d) && i < |d.fetches| == |n.fetches|
    requires forall j | 0 <= j < |d.fetches| && j != i :: n.fetches[j] == d.fetches[j]
    requires forall name | name in n.files && TempOf(d.fetches[i]) != Some(name) && DigestOf(name).None? :: name in d.files && n.files[name] == d.files[name]
    requires Truth(hash, n) && FetchOk(hash, n, n.fetches[i])
    requires TempOf(n.fetches[i]).None? || TempOf(n.fetches[i]) == TempOf(d.fetches[i]) || Fresh(d, TempOf(n.fetches[i]).value)
    ensures Inv(hash, n)
  {
    OthersKeepTheirs(hash, d, n, i);
    hide FetchOk, Truth;
    forall a, b | 0 <= a < b < |n.fetches| && TempOf(n.fetches[a]).Some?
      ensures TempOf(n.fetches[a]) != TempOf(n.fetches[b])
    {
    }
  }

  lemma CallKeeps(hash: Hash, d: Disk, sha: string, size: int)
    requires Inv(hash, d)
    ensures Inv(hash, Step(hash, d, Call(sha, size)))
  {
    hide IsContentDigest;
    var n := Step(hash, d, Call(sha, size));
    forall j | 0 <= j < |n.fetches|
      ensures FetchOk(hash, n, n.fetches[j])
    {
      if j < |d.fetches| { assert FetchOk(hash, d, d.fetches[j]); }
    }
  }

  /** The steps that leave the directory alone. */
  lemma QuietKeeps(hash: Hash, d: Disk, i: nat, f: Fetch)
    requires Inv(hash, d) && i < |d.fetches| && FetchOk(hash, d, f)
    requires TempOf(f).None? || TempOf(f) == TempOf(d.fetches[i]) || Fresh(d, TempOf(f).value)
    ensures Inv(hash, Put(d, i, f))
  {
    hide IsContentDigest, CachedName, PartName, DigestOf;
    assert FetchOk(hash, Put(d, i, f), f);
    OneMoves(hash, d, Put(d, i, f), i);
  }

  lemma LookKeeps(hash: Hash, d: Disk, e: Event)
    requires Inv(hash, d) && Possible(d, e) && (e.Looked? || e.DirMade?)
    ensures Inv(hash, Step(hash, d, e))
  {
    hide IsContentDigest, CachedName, PartName, DigestOf, Truth, TempsApart;
    assert FetchOk(hash, d, d.fetches[e.i]);
    QuietKeeps(hash, d, e.i, Step(hash, d, e).fetches[e.i]);
  }

  lemma StreamKeeps(hash: Hash, d: Disk, e: Event)
    requires Inv(hash, d) && Possible(d, e) && e.Streamed?
    ensures Inv(hash, Step(hash, d, e))
  {
    hide IsContentDigest, CachedName, PartName, DigestOf, Truth, TempsApart;
    assert FetchOk(hash, d, d.fetches[e.i]);
    QuietKeeps(hash, d, e.i, Step(hash, d, e).fetches[e.i]);
  }

  lemma ListKeeps(hash: Hash, d: Disk, e: Event)
    requires Inv(hash, d) && Possible(d, e) && e.Listed?
    ensures Inv(hash, Step(hash, d, e))
  {
    var f := d.fetches[e.i];
    assert FetchOk(hash, d, f);
    var victims := Victims(e.entries, e.cap, CachedName(f.sha));
    KeptIsNoVictim(e.entries, e.cap, CachedName(f.sha));
    hide IsContentDigest, CachedName, PartName, DigestOf, Truth, TempsApart, Victims;
    QuietKeeps(hash, d, e.i, Evict(f, victims));
  }

  /** The steps on the temporary file. */
  lemma TempKeeps(hash: Hash, d: Disk, e: Event)
    requires Inv(hash, d) && Possible(d, e)
    requires e.Opened? || e.Chunk? || e.Cleaned?
    ensures Inv(hash, Step(hash, d, e))
  {
    var f := d.fetches[e.i];
    assert FetchOk(hash, d, f);
    TempHasNoDigest(f);
    hide IsContentDigest, CachedName, PartName, DigestOf;
    OneMoves(hash, d, Step(hash, d, e), e.i);
  }

  lemma RenameKeeps(hash: Hash, d: Disk, e: Event)
    requires Inv(hash, d) && Possible(d, e) && e.Renamed?
    ensures Inv(hash, Step(hash, d, e))
  {
    var f := d.fetches[e.i];
    assert FetchOk(hash, d, f);
    TempHasNoDigest(f);
    NamesTellApart(f.sha, SuffixOf(f.phase).value, f.sha);
    hide IsContentDigest, CachedName, PartName, DigestOf;
    OneMoves(hash, d, Step(hash, d, e), e.i);
  }

  lemma EvictKeeps(hash: Hash, d: Disk, e: Event)
    requires Inv(hash, d) && Possible(d, e) && e.Evicted?
    ensures Inv(hash, Step(hash, d, e))
  {
    var f := d.fetches[e.i];
    assert FetchOk(hash, d, f);
    hide IsContentDigest, CachedName, PartName, DigestOf;
    OneMoves(hash, d, Step(hash, d, e), e.i);
  }

  lemma StepKeeps(hash: Hash, d: Disk, e: Event)
    requires Inv(hash, d) && Possible(d, e)
    ensures Inv(hash, Step(hash, d, e))
  {
    if e.Call? { CallKeeps(hash, d, e.sha, e.size); }
    else if e.Renamed? { RenameKeeps(hash, d, e); }
    else if e.Evicted? { EvictKeeps(hash, d, e); }
    else if e.Opened? || e.Chunk? || e.Cleaned? { TempKeeps(hash, d, e); }
    else if e.Listed? { ListKeeps(hash, d, e); }
    else if e.Streamed? { StreamKeeps(hash, d, e); }
    else { LookKeeps(hash, d, e); }
  }

  // ---- Whole runs -------------------------------------------------------------------------------------

  ghost predicate Runs(hash: Hash, d: Disk, events: seq<Event>)
    decreases |events|
  {
    events == [] || (Possible(d, events[0]) && Runs(hash, Step(hash, d, events[0]), events[1..]))
  }

  ghost function Run(hash: Hash, d: Disk, events: seq<Event>): Disk
    requires Runs(hash, d, events)
    decreases |events|
  {
    if events == [] then d else Run(hash, Step(hash, d, events[0]), events[1..])
  }

  lemma {:induction false} RunKeeps(hash: Hash, d: Disk, events: seq<Event>)
    requires Inv(hash, d) && Runs(hash, d, events)
    ensures Inv(hash, Run(hash, d, events))
    decreases |events|
  {
    hide Inv, Possible, Step;
    if events != [] {
      StepKeeps(hash, d, events[0]);
      RunKeeps(hash, Step(hash, d, events[0]), events[1..]);
    }
  }

  /** However many fetches run beside one another, with corrupt or broken transfers and evictions
      at any point: what lies under a digest's name hashes to that digest, a finished fetch has
      closed its source once and no other has closed it, and what a fetch says it has
      transferred was compared with its digest. */
  lemma CacheTellsTheTruth(hash: Hash, files: map<string, Bytes>, events: seq<Event>)
    requires Truth(hash, Disk(files, [])) && Runs(hash, Disk(files, []), events)
    ensures var d := Run(hash, Disk(files, []), events);
            && Truth(hash, d)
            && forall i | 0 <= i < |d.fetches| ::
                 var f := d.fetches[i];
                 && f.closed == (if f.phase.Over? then 1 else 0)
                 && (f.phase.Over? && f.phase.result.Fetched? && !f.phase.result.cached ==>
                       hash(f.got) == f.sha && f.phase.result.bytes == |f.got|)
  {
    RunKeeps(hash, Disk(files, []), events);
    hide Truth, Runs, Run;
    var d := Run(hash, Disk(files, []), events);
    forall i | 0 <= i < |d.fetches|
      ensures FetchOk(hash, d, d.fetches[i])
    {
    }
  }

  // ---- How a fetch ends ---------------------------------------------------------------------------

  /** What must happen for a fetch under way to end with the result. */
  predicate Cause(d: Disk, e: Event, i: nat, result: Result)
    requires Possible(d, e) && i < |d.fetches|
  {
    var f := d.fetches[i];
    match result
    case Fetched(bytes, true) => e == Looked(i) && CachedName(f.sha) in d.files && bytes == |d.files[CachedName(f.sha)]|
    case Fetched(bytes, false) =>
      && bytes == |f.got|
      && ((e.Listed? && e.i == i && Victims(e.entries, e.cap, CachedName(f.sha)) == []) || (e.Evicted? && e.i == i && |f.phase.victims| == 1))
    case Failed =>
      || (e == Looked(i) && CachedName(f.sha) !in d.files && !(0 < f.size <= MAX_FETCH_BYTES))
      || (e.DirMade? && e.i == i && !e.ok)
      || (e.Cleaned? && e.i == i)
  }

  /** A call that names no digest fails at once; any other begins. */
  lemma CallAnswers(hash: Hash, d: Disk, sha: string, size: int)
    ensures var n := Step(hash, d, Call(sha, size));
            && n.files == d.files && |n.fetches| == |d.fetches| + 1 && n.fetches[..|d.fetches|] == d.fetches
            && n.fetches[|d.fetches|].sha == sha && n.fetches[|d.fetches|].size == size
            && (n.fetches[|d.fetches|].phase == Over(Failed) <==> !IsContentDigest(sha))
            && (n.fetches[|d.fetches|].phase == Looking <==> IsContentDigest(sha))
  {
    hide IsContentDigest;
  }

  /** A fetch ends with a result exactly when its cause happens, and an ended fetch stays as it is. */
  lemma FetchEndsExactly(hash: Hash, d: Disk, e: Event, i: nat, result: Result)
    requires Possible(d, e) && i < |d.fetches|
    ensures i < |Step(hash, d, e).fetches|
    ensures Step(hash, d, e).fetches[i].phase == Over(result) <==>
            if d.fetches[i].phase.Over? then d.fetches[i].phase == Over(result) else Cause(d, e, i, result)
    ensures d.fetches[i].phase.Over? ==> Step(hash, d, e).fetches[i] == d.fetches[i]
  {
    hide IsContentDigest, CachedName, PartName, Victims, Fresh;
  }

  /** A transfer of what was asked for: the directory ends with one file more, the recording under its
      digest's name, and the fetch goes on to make room for it. */
  lemma GoodTransfer(hash: Hash, d: Disk, i: nat, suffix: string, bytes: Bytes)
    requires Inv(hash, d) && i < |d.fetches| && d.fetches[i].phase.Looking? && 0 < d.fetches[i].size <= MAX_FETCH_BYTES
    requires var name := CachedName(d.fetches[i].sha); name !in d.files && Fresh(d, PartName(d.fetches[i].sha, suffix))
    requires hash(bytes) == d.fetches[i].sha
    ensures var d5 := Transferred(hash, d, i, suffix, bytes);
            && Possible(d5, Renamed(i, true))
            && var n := Step(hash, d5, Renamed(i, true));
            && n.files == d.files[CachedName(d.fetches[i].sha) := bytes]
            && n.fetches == d.fetches[i := d.fetches[i].(phase := Listing, got := bytes)]
  {
    var f := d.fetches[i];
    assert FetchOk(hash, d, f);
    NamesTellApart(f.sha, suffix, f.sha);
    TransferredIs(hash, d, i, suffix, bytes);
    hide IsContentDigest, CachedName, PartName, Victims, Fresh, Inv;
    var d5 := Transferred(hash, d, i, suffix, bytes);
    hide Transferred;
    var n := Step(hash, d5, Renamed(i, true));
    var tmp := PartName(f.sha, suffix);
    assert d.files[tmp := bytes] - {tmp} == d.files;
  }

  /** A transfer of anything else: once its temporary file is removed the directory is as it was, and
      the fetch has failed. */
  lemma BadTransfer(hash: Hash, d: Disk, i: nat, suffix: string, bytes: Bytes)
    requires Inv(hash, d) && i < |d.fetches| && d.fetches[i].phase.Looking? && 0 < d.fetches[i].size <= MAX_FETCH_BYTES
    requires var name := CachedName(d.fetches[i].sha); name !in d.files && Fresh(d, PartName(d.fetches[i].sha, suffix))
    requires hash(bytes) != d.fetches[i].sha
    ensures var d5 := Transferred(hash, d, i, suffix, bytes);
            && Possible(d5, Cleaned(i, true))
            && var n := Step(hash, d5, Cleaned(i, true));
            && n.files == d.files
            && n.fetches == d.fetches[i := d.fetches[i].(phase := Over(Failed), got := bytes, closed := d.fetches[i].closed + 1)]
  {
    var f := d.fetches[i];
    assert FetchOk(hash, d, f);
    TransferredIs(hash, d, i, suffix, bytes);
    hide IsContentDigest, CachedName, PartName, Victims, Fresh, Inv;
    var d5 := Transferred(hash, d, i, suffix, bytes);
    hide Transferred;
    var n := Step(hash, d5, Cleaned(i, true));
    var tmp := PartName(f.sha, suffix);
    assert d.files[tmp := bytes] - {tmp} == d.files;
  }

  /** A miss, the directory, the temporary file, the bytes in one piece and the end of the stream. */
  function Transferred(hash: Hash, d: Disk, i: nat, suffix: string, bytes: Bytes): Disk
    requires i < |d.fetches| && d.fetches[i].phase.Looking? && 0 < d.fetches[i].size <= MAX_FETCH_BYTES
    requires CachedName(d.fetches[i].sha) !in d.files && Fresh(d, PartName(d.fetches[i].sha, suffix))
  {
    var d1 := Step(hash, d, Looked(i));
    var d2 := Step(hash, d1, DirMade(i, true, suffix));
    var d3 := Step(hash, d2, Opened(i, true));
    var d4 := Step(hash, d3, Chunk(i, bytes));
    Step(hash, d4, Streamed(i, true))
  }

  lemma TransferredIs(hash: Hash, d: Disk, i: nat, suffix: string, bytes: Bytes)
    requires i < |d.fetches| && d.fetches[i].phase.Looking? && 0 < d.fetches[i].size <= MAX_FETCH_BYTES
    requires CachedName(d.fetches[i].sha) !in d.files && Fresh(d, PartName(d.fetches[i].sha, suffix))
    requires d.fetches[i].got == []
    ensures var f := d.fetches[i];
            Transferred(hash, d, i, suffix, bytes) ==
            Disk(d.files[PartName(f.sha, suffix) := bytes],
                 d.fetches[i := f.(phase := if hash(bytes) == f.sha then Renaming(suffix) else Cleaning(suffix), got := bytes)])
  {
    hide CachedName, PartName;
    var f := d.fetches[i];
    assert [] + bytes == bytes;
  }

  /** A recording goes only as a victim of an eviction, and never one that the evicting fetch has
      just brought. */
  lemma RecordingsGoByEviction(hash: Hash, d: Disk, e: Event, name: string)
    requires Inv(hash, d) && Possible(d, e) && DigestOf(name).Some? && name in d.files && name !in Step(hash, d, e).files
    ensures e.Evicted? && e.ok && name == d.fetches[e.i].phase.victims[0] && name != CachedName(d.fetches[e.i].sha)
  {
    if !e.Call? {
      assert FetchOk(hash, d, d.fetches[e.i]);
      if TempOf(d.fetches[e.i]).Some? { TempHasNoDigest(d.fetches[e.i]); }
    }
    hide Inv, DigestOf, IsContentDigest, PartName, CachedName, Victims, Fresh;
  }

  predicate Holds(f: Fetch, name: string) {
    TempOf(f) == Some(name) || f.left == Some(name)
  }

  predicate Accounted(before: set<string>, d: Disk, name: string) {
    DigestOf(name).Some? || name in before || exists i | 0 <= i < |d.fetches| :: Holds(d.fetches[i], name)
  }

  /** Every file that is no recording was there before, is being written by a fetch under way, or
      is one that its fetch could not remove. */
  predicate NoStrays(before: set<string>, d: Disk) {
    forall name | name in d.files :: Accounted(before, d, name)
  }

  /** A file that a step leaves in place still belongs to the fetch it belonged to. */
  lemma StillHeld(hash: Hash, d: Disk, e: Event, i: nat, name: string)
    requires Inv(hash, d) && Possible(d, e) && i < |d.fetches| && Holds(d.fetches[i], name)
    requires name in d.files && name in Step(hash, d, e).files && DigestOf(name).None?
    ensures i < |Step(hash, d, e).fetches| && Holds(Step(hash, d, e).fetches[i], name)
  {
    assert FetchOk(hash, d, d.fetches[i]);
    if e.Renamed? && e.i == i { NamesTellApart(d.fetches[i].sha, d.fetches[i].phase.suffix, d.fetches[i].sha); }
    hide Inv, DigestOf, IsContentDigest, PartName, CachedName, Victims, Fresh;
  }

  /** The only file a step creates outside the digests' names is a temporary file just opened. */
  lemma NewFileIsTemp(hash: Hash, d: Disk, e: Event, name: string)
    requires Inv(hash, d) && Possible(d, e) && name !in d.files && name in Step(hash, d, e).files && DigestOf(name).None?
    ensures e.Opened? && TempOf(Step(hash, d, e).fetches[e.i]) == Some(name)
  {
    if e.Renamed? {
      assert FetchOk(hash, d, d.fetches[e.i]);
      NamesTellApart(d.fetches[e.i].sha, d.fetches[e.i].phase.suffix, d.fetches[e.i].sha);
    }
    hide Inv, DigestOf, IsContentDigest, PartName, CachedName, Victims, Fresh;
  }

  lemma StepLeavesNoStrays(hash: Hash, before: set<string>, d: Disk, e: Event)
    requires Inv(hash, d) && Possible(d, e) && NoStrays(before, d)
    ensures NoStrays(before, Step(hash, d, e))
  {
    hide Inv, Step, Possible, Holds, DigestOf;
    var n := Step(hash, d, e);
    forall name | name in n.files
      ensures Accounted(before, n, name)
    {
      if DigestOf(name).None? && name !in before {
        if name in d.files {
          assert Accounted(before, d, name);
          var i :| 0 <= i < |d.fetches| && Holds(d.fetches[i], name);
          StillHeld(hash, d, e, i, name);
        } else {
          NewFileIsTemp(hash, d, e, name);
          OpenedHolds(hash, d, e, name);
        }
      }
    }
  }

  lemma OpenedHolds(hash: Hash, d: Disk, e: Event, name: string)
    requires Possible(d, e) && e.Opened? && TempOf(Step(hash, d, e).fetches[e.i]) == Some(name)
    ensures e.i < |Step(hash, d, e).fetches| && Holds(Step(hash, d, e).fetches[e.i], name)
  {
    hide PartName;
  }

  /** A corrupt or broken transfer leaves nothing behind that it could remove. */
  lemma {:induction false} NothingStaysBehind(hash: Hash, before: set<string>, d: Disk, events: seq<Event>)
    requires Inv(hash, d) && NoStrays(before, d) && Runs(hash, d, events)
    ensures NoStrays(before, Run(hash, d, events))
    decreases |events|
  {
    hide Inv, Possible, Step, NoStrays;
    if events != [] {
      StepKeeps(hash, d, events[0]);
      StepLeavesNoStrays(hash, before, d, events[0]);
      NothingStaysBehind(hash, before, Step(hash, d, events[0]), events[1..]);
    }
  }

  // ---- The fetches, step by step ---------------------------------------------------------------------

  class Recordings {
    const hash: Hash
    var files: map<string, Bytes>
    var fetches: seq<Fetch>

    function Value(): Disk
      reads this
    {
      Disk(files, fetches)
    }

    constructor (hash: Hash, files: map<string, Bytes>)
      requires Truth(hash, Disk(files, []))
      ensures this.hash == hash && Value() == Disk(files, []) && Inv(hash, Value())
    {
      this.hash, this.files, fetches := hash, files, [];
    }

    method Close(i: nat, result: Result)
      requires i < |fetches|
      modifies this`fetches
      ensures fetches == old(fetches)[i := Finish(old(fetches)[i], result)]
    {
      fetches := fetches[i := fetches[i].(phase := Over(result))];
      fetches := fetches[i := fetches[i].(closed := fetches[i].closed + 1)];
    }

    method Move(i: nat, phase: Phase)
      requires i < |fetches|
      modifies this`fetches
      ensures fetches == old(fetches)[i := old(fetches)[i].(phase := phase)]
    {
      fetches := fetches[i := fetches[i].(phase := phase)];
    }

    /** A call up to its look at the directory: a bad digest is refused there. */
    method FetchRecording(sha: string, size: int)
      requires Inv(hash, Value())
      modifies this
      ensures Value() == Step(hash, old(Value()), Call(sha, size)) && Inv(hash, Value())
    {
      StepKeeps(hash, Value(), Call(sha, size));
      hide Inv, Finish;
      fetches := fetches + [Fetch(sha, size, Looking, [], 0, None)];
      if !IsContentDigest(sha) { Close(|fetches| - 1, Failed); }
    }

    /** The look at the directory: a hit, a refusal by size, or a transfer to begin. */
    method Look(i: nat)
      requires Inv(hash, Value()) && Possible(Value(), Looked(i))
      modifies this
      ensures Value() == Step(hash, old(Value()), Looked(i)) && Inv(hash, Value())
    {
      StepKeeps(hash, Value(), Looked(i));
      hide Inv, Finish;
      var f := fetches[i];
      if CachedName(f.sha) in files { Close(i, Fetched(|files[CachedName(f.sha)]|, true)); }
      else if f.size <= 0 { Close(i, Failed); }
      else if f.size > MAX_FETCH_BYTES { Close(i, Failed); }
      else { Move(i, MakingDir); }
    }

    method MakeDir(i: nat, ok: bool, suffix: string)
      requires Inv(hash, Value()) && Possible(Value(), DirMade(i, ok, suffix))
      modifies this
      ensures Value() == Step(hash, old(Value()), DirMade(i, ok, suffix)) && Inv(hash, Value())
    {
      StepKeeps(hash, Value(), DirMade(i, ok, suffix));
      hide Inv, Finish;
      if ok { Move(i, Opening(suffix)); } else { Close(i, Failed); }
    }

    /** The pipeline: the temporary file is created, and chunks go to it and to the digest. */
    method Open(i: nat, ok: bool)
      requires Inv(hash, Value()) && Possible(Value(), Opened(i, ok))
      modifies this
      ensures Value() == Step(hash, old(Value()), Opened(i, ok)) && Inv(hash, Value())
    {
      StepKeeps(hash, Value(), Opened(i, ok));
      hide Inv;
      var suffix := fetches[i].phase.suffix;
      if ok {
        files := files[PartName(fetches[i].sha, suffix) := []];
        Move(i, Transferring(suffix));
      } else {
        Move(i, Cleaning(suffix));
      }
    }

    method Transform(i: nat, bytes: Bytes)
      requires Inv(hash, Value()) && Possible(Value(), Chunk(i, bytes))
      modifies this
      ensures Value() == Step(hash, old(Value()), Chunk(i, bytes)) && Inv(hash, Value())
    {
      StepKeeps(hash, Value(), Chunk(i, bytes));
      hide Inv;
      var tmp := PartName(fetches[i].sha, fetches[i].phase.suffix);
      fetches := fetches[i := fetches[i].(got := fetches[i].got + bytes)];
      if tmp in files { files := files[tmp := files[tmp] + bytes]; }
    }

    /** The end of the stream: compare the digest. */
    method Compare(i: nat, ok: bool)
      requires Inv(hash, Value()) && Possible(Value(), Streamed(i, ok))
      modifies this
      ensures Value() == Step(hash, old(Value()), Streamed(i, ok)) && Inv(hash, Value())
    {
      StepKeeps(hash, Value(), Streamed(i, ok));
      hide Inv;
      var suffix := fetches[i].phase.suffix;
      if ok && hash(fetches[i].got) == fetches[i].sha { Move(i, Renaming(suffix)); } else { Move(i, Cleaning(suffix)); }
    }

    method Rename(i: nat, ok: bool)
      requires Inv(hash, Value()) && Possible(Value(), Renamed(i, ok))
      modifies this
      ensures Value() == Step(hash, old(Value()), Renamed(i, ok)) && Inv(hash, Value())
    {
      StepKeeps(hash, Value(), Renamed(i, ok));
      hide Inv;
      var f := fetches[i];
      var tmp := PartName(f.sha, f.phase.suffix);
      if ok && tmp in files {
        var bytes := files[tmp];
        files := files - {tmp};
        files := files[CachedName(f.sha) := bytes];
        Move(i, Listing);
      } else {
        Move(i, Cleaning(f.phase.suffix));
      }
    }

    method Clean(i: nat, ok: bool)
      requires Inv(hash, Value()) && Possible(Value(), Cleaned(i, ok))
      modifies this
      ensures Value() == Step(hash, old(Value()), Cleaned(i, ok)) && Inv(hash, Value())
    {
      StepKeeps(hash, Value(), Cleaned(i, ok));
      hide Inv;
      var tmp := PartName(fetches[i].sha, fetches[i].phase.suffix);
      if ok { files := files - {tmp}; } else { fetches := fetches[i := fetches[i].(left := Some(tmp))]; }
      Close(i, Failed);
    }

    /** Evict the next victim, or return the recording when none is left. */
    method NextVictim(i: nat, victims: seq<string>)
      requires i < |fetches|
      modifies this`fetches
      ensures fetches == old(fetches)[i := Evict(old(fetches)[i], victims)]
    {
      if victims == [] { Close(i, Fetched(|fetches[i].got|, false)); } else { Move(i, Evicting(victims)); }
    }

    method List(i: nat, entries: seq<CacheEntry>, cap: int)
      requires Inv(hash, Value()) && Possible(Value(), Listed(i, entries, cap))
      modifies this
      ensures Value() == Step(hash, old(Value()), Listed(i, entries, cap)) && Inv(hash, Value())
    {
      StepKeeps(hash, Value(), Listed(i, entries, cap));
      hide Inv, Victims, Finish;
      var victims := PruneVictims(entries, cap, CachedName(fetches[i].sha));
      NextVictim(i, victims);
    }

    method Remove(i: nat, ok: bool)
      requires Inv(hash, Value()) && Possible(Value(), Evicted(i, ok))
      modifies this
      ensures Value() == Step(hash, old(Value()), Evicted(i, ok)) && Inv(hash, Value())
    {
      StepKeeps(hash, Value(), Evicted(i, ok));
      hide Inv, Finish;
      var victims := fetches[i].phase.victims;
      if ok { files := files - {victims[0]}; }
      NextVictim(i, victims[1..]);
    }
  }
}
