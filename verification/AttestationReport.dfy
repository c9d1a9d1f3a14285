/** The binary ATTESTATION_REPORT parser: version gate, generation of the
    processor, and the two TCB_VERSION layouts. */
module AttestationReport {
  import opened Prelude

  // ── Little-endian integers ────────────────────────────────────

  function Le(s: bytes): nat {
    if s == [] then 0 else s[0] + 256 * Le(s[1..])
  }

  function LeBytes(n: nat, len: nat): (s: bytes)
    ensures |s| == len
  {
    if len == 0 then [] else [n % 256] + LeBytes(n / 256, len - 1)
  }

  function Pow256(len: nat): nat {
    if len == 0 then 1 else 256 * Pow256(len - 1)
  }

  /** Reading the `len` bytes of a number that fits them gives it back. */
  lemma {:induction false} LeOfLeBytes(n: nat, len: nat)
    requires n < Pow256(len)
    ensures Le(LeBytes(n, len)) == n
  {
    if len > 0 {
      LeOfLeBytes(n / 256, len - 1);
      assert LeBytes(n, len)[1..] == LeBytes(n / 256, len - 1);
    }
  }

  lemma {:induction false} LeFits(s: bytes)
    ensures Le(s) < Pow256(|s|)
  {
    if s != [] {
      LeFits(s[1..]);
    }
  }

  // ── Generations ───────────────────────────────────────────────

  datatype TcbLayout = Legacy | Turin | OtherLayout(name: string)

  datatype Generation = Generation(name: string, layout: TcbLayout)

  datatype Known = Known(family: nat, from: nat, below: nat, generation: Generation)

  /** SUPPORTED_GENERATIONS. */
  const SUPPORTED: seq<Known> := [
    Known(0x19, 0x00, 0x10, Generation("Milan", Legacy)),
    Known(0x19, 0x10, 0x20, Generation("Genoa", Legacy)),
    Known(0x19, 0xA0, 0xB0, Generation("Bergamo/Siena", Legacy)),
    Known(0x1A, 0x00, 0x12, Generation("Turin", Turin))]

  function ResolveIn(table: seq<Known>, family: nat, model: nat): Option<Generation> {
    if table == [] then None
    else if family == table[0].family && table[0].from <= model < table[0].below then Some(table[0].generation)
    else ResolveIn(table[1..], family, model)
  }

  /** `resolve_generation`; `None` where it raises. */
  function Resolve(family: nat, model: nat): Option<Generation> {
    ResolveIn(SUPPORTED, family, model)
  }

  /** The table decides by ranges that do not overlap, so its order is
      immaterial, and every generation in it has a layout that can be decoded. */
  lemma ResolveByRange(family: nat, model: nat)
    ensures Resolve(family, model) ==
              if family == 0x19 && model < 0x10 then Some(Generation("Milan", Legacy))
              else if family == 0x19 && 0x10 <= model < 0x20 then Some(Generation("Genoa", Legacy))
              else if family == 0x19 && 0xA0 <= model < 0xB0 then Some(Generation("Bergamo/Siena", Legacy))
              else if family == 0x1A && model < 0x12 then Some(Generation("Turin", Turin))
              else None
  {
    var t0 := SUPPORTED;
    var t1 := t0[1..];
    var t2 := t1[1..];
    var t3 := t2[1..];
    assert t3[1..] == [];
    assert t1[0] == t0[1] && t2[0] == t0[2] && t3[0] == t0[3];
    assert ResolveIn(t3, family, model) ==
           if family == 0x1A && model < 0x12 then Some(Generation("Turin", Turin)) else None;
    assert ResolveIn(t2, family, model) ==
           if family == 0x19 && 0xA0 <= model < 0xB0 then Some(Generation("Bergamo/Siena", Legacy))
           else ResolveIn(t3, family, model);
    assert ResolveIn(t1, family, model) ==
           if family == 0x19 && 0x10 <= model < 0x20 then Some(Generation("Genoa", Legacy))
           else ResolveIn(t2, family, model);
  }

  // ── TCB_VERSION ───────────────────────────────────────────────

  datatype TcbVersion = TcbVersion(bootloader: byte, tee: byte, snp: byte, microcode: byte, fmc: Option<byte>)

  /** `TcbVersion.from_bytes`; `None` where it raises. */
  function DecodeTcb(raw: bytes, layout: TcbLayout): Option<TcbVersion>
    requires |raw| == 8
  {
    match layout
    case Turin => Some(TcbVersion(raw[1], raw[2], raw[3], raw[7], Some(raw[0])))
    case Legacy => Some(TcbVersion(raw[0], raw[1], raw[6], raw[7], None))
    case OtherLayout(_) => None
  }

  // ── The parser ────────────────────────────────────────────────

  const REPORT_SIZE := 1184
  const KNOWN_VERSIONS: set<nat> := {2, 3, 5}
  const OLDEST: nat := 2

  datatype Cpuid = Cpuid(family: byte, model: byte, stepping: byte)

  datatype CpuidNote =
    | HostUsedInstead(cpuid: Cpuid, host: string)
    | LeftUndecoded(cpuid: Cpuid)

  datatype Report = Report(
    version: nat,
    guestSvn: nat,
    policy: nat,
    familyId: bytes,
    imageId: bytes,
    vmpl: nat,
    reportData: bytes,
    measurement: bytes,
    hostData: bytes,
    idKeyDigest: bytes,
    authorKeyDigest: bytes,
    reportId: bytes,
    reportedTcb: Option<TcbVersion>,
    cpuid: Option<Cpuid>,
    generation: string,
    cpuidNote: Option<CpuidNote>,
    newerVersion: bool)
  {
    predicate IdBlockUsed() {
      exists i :: 0 <= i < |idKeyDigest| && idKeyDigest[i] != 0
    }
  }

  datatype ParseError =
    | Malformed(size: nat)
    | OldVersion(version: nat)
    | Foreign(cpuid: Cpuid, report: Generation, host: Generation)
    | UnknownLayout(name: string)

  datatype Parsed = Ok(report: Report) | Err(error: ParseError)

  function At(data: bytes, off: nat, len: nat): bytes
    requires off + len <= |data|
  {
    data[off..off + len]
  }

  function VersionOf(data: bytes): nat
    requires |data| == REPORT_SIZE
  {
    Le(At(data, 0x000, 4))
  }

  function CpuidOf(data: bytes): Option<Cpuid>
    requires |data| == REPORT_SIZE
  {
    if VersionOf(data) >= 3 then Some(Cpuid(data[0x188], data[0x189], data[0x18A])) else None
  }

  /** The generation the TCB is decoded with, and what is noted about it. */
  datatype Chosen = Chosen(generation: Option<Generation>, note: Option<CpuidNote>) | Rejected(error: ParseError)

  function Choose(host: Option<Generation>, cpuid: Option<Cpuid>): Chosen {
    match (host, cpuid)
    case (Some(g), Some(c)) =>
      (match Resolve(c.family, c.model)
       case None => Chosen(host, Some(HostUsedInstead(c, g.name)))
       case Some(r) => if r != g then Rejected(Foreign(c, r, g)) else Chosen(host, None))
    case (None, Some(c)) =>
      (match Resolve(c.family, c.model)
       case None => Chosen(None, Some(LeftUndecoded(c)))
       case Some(r) => Chosen(Some(r), None))
    case (_, None) => Chosen(host, None)
  }

  function Fields(data: bytes, tcb: Option<TcbVersion>, generation: string, note: Option<CpuidNote>): Report
    requires |data| == REPORT_SIZE
  {
    var version := VersionOf(data);
    Report(
      version,
      Le(At(data, 0x004, 4)),
      Le(At(data, 0x008, 8)),
      At(data, 0x010, 16),
      At(data, 0x020, 16),
      Le(At(data, 0x030, 4)),
      At(data, 0x050, 64),
      At(data, 0x090, 48),
      At(data, 0x0C0, 32),
      At(data, 0x0E0, 48),
      At(data, 0x110, 48),
      At(data, 0x140, 32),
      tcb,
      CpuidOf(data),
      generation,
      note,
      version !in KNOWN_VERSIONS)
  }

  function Decode(data: bytes, chosen: Chosen): Parsed
    requires |data| == REPORT_SIZE
  {
    match chosen
    case Rejected(error) => Err(error)
    case Chosen(None, note) => Ok(Fields(data, None, "unknown", note))
    case Chosen(Some(g), note) =>
      match DecodeTcb(At(data, 0x180, 8), g.layout)
      case None => Err(UnknownLayout(g.layout.name))
      case Some(tcb) => Ok(Fields(data, Some(tcb), g.name, note))
  }

  /** `parse`. */
  function Parse(data: bytes, host: Option<Generation>): Parsed {
    if |data| != REPORT_SIZE then Err(Malformed(|data|))
    else if VersionOf(data) < OLDEST then Err(OldVersion(VersionOf(data)))
    else Decode(data, Choose(host, CpuidOf(data)))
  }

  // ── Writing a report in place ─────────────────────────────────

  datatype Region = Region(off: nat, content: bytes)

  function Put(buf: bytes, r: Region): (b: bytes)
    requires r.off + |r.content| <= |buf|
    ensures |b| == |buf|
  {
    buf[..r.off] + r.content + buf[r.off + |r.content|..]
  }

  /** Regions in ascending order, disjoint, and within `limit`. */
  predicate Ordered(rs: seq<Region>, limit: nat) {
    && (forall k | 0 <= k < |rs| :: rs[k].off + |rs[k].content| <= limit)
    && (forall j, k | 0 <= j < k < |rs| :: rs[j].off + |rs[j].content| <= rs[k].off)
  }

  function PutAll(buf: bytes, rs: seq<Region>): (b: bytes)
    requires Ordered(rs, |buf|)
    ensures |b| == |buf|
    decreases |rs|
  {
    if rs == [] then buf else PutAll(Put(buf, rs[0]), rs[1..])
  }

  predicate Outside(rs: seq<Region>, off: nat, len: nat) {
    forall k | 0 <= k < |rs| :: off + len <= rs[k].off || rs[k].off + |rs[k].content| <= off
  }

  lemma PutKeeps(buf: bytes, r: Region, off: nat, len: nat)
    requires r.off + |r.content| <= |buf| && off + len <= |buf|
    requires off + len <= r.off || r.off + |r.content| <= off
    ensures At(Put(buf, r), off, len) == At(buf, off, len)
  {
  }

  /** What lies outside every region is kept. */
  lemma {:induction false} PutAllKeeps(buf: bytes, rs: seq<Region>, off: nat, len: nat)
    requires Ordered(rs, |buf|) && off + len <= |buf| && Outside(rs, off, len)
    ensures At(PutAll(buf, rs), off, len) == At(buf, off, len)
    decreases |rs|
  {
    if rs != [] {
      PutKeeps(buf, rs[0], off, len);
      PutAllKeeps(Put(buf, rs[0]), rs[1..], off, len);
    }
  }

  /** Every region can be read back, because no other region touches it. */
  lemma {:induction false} PutAllReads(buf: bytes, rs: seq<Region>, k: nat)
    requires Ordered(rs, |buf|) && k < |rs|
    ensures At(PutAll(buf, rs), rs[k].off, |rs[k].content|) == rs[k].content
    decreases |rs|
  {
    if k == 0 {
      PutAllKeeps(Put(buf, rs[0]), rs[1..], rs[0].off, |rs[0].content|);
      assert At(Put(buf, rs[0]), rs[0].off, |rs[0].content|) == rs[0].content;
    } else {
      PutAllReads(Put(buf, rs[0]), rs[1..], k - 1);
    }
  }

  /** The values of all fields a report carries. */
  datatype Contents = Contents(
    version: nat,
    guestSvn: nat,
    policy: nat,
    familyId: bytes,
    imageId: bytes,
    vmpl: nat,
    reportData: bytes,
    measurement: bytes,
    hostData: bytes,
    idKeyDigest: bytes,
    authorKeyDigest: bytes,
    reportId: bytes,
    tcb: TcbVersion,
    cpuid: Cpuid)
  {
    predicate Fits() {
      && version < Pow256(4) && guestSvn < Pow256(4) && policy < Pow256(8) && vmpl < Pow256(4)
      && |familyId| == 16 && |imageId| == 16
      && |reportData| == 64 && |measurement| == 48 && |hostData| == 32
      && |idKeyDigest| == 48 && |authorKeyDigest| == 48 && |reportId| == 32
    }
  }

  function BodyRegions(c: Contents): seq<Region> {
    [ Region(0x000, LeBytes(c.version, 4)),
      Region(0x004, LeBytes(c.guestSvn, 4)),
      Region(0x008, LeBytes(c.policy, 8)),
      Region(0x010, c.familyId),
      Region(0x020, c.imageId),
      Region(0x030, LeBytes(c.vmpl, 4)),
      Region(0x050, c.reportData),
      Region(0x090, c.measurement),
      Region(0x0C0, c.hostData),
      Region(0x0E0, c.idKeyDigest),
      Region(0x110, c.authorKeyDigest),
      Region(0x140, c.reportId) ]
  }

  /** The bytes of TCB_VERSION that a layout uses; reserved bytes are left. */
  function TcbRegions(t: TcbVersion, layout: TcbLayout): seq<Region> {
    match layout
    case Turin =>
      [ Region(0x180, [if t.fmc.Some? then t.fmc.value else 0]), Region(0x181, [t.bootloader]),
        Region(0x182, [t.tee]), Region(0x183, [t.snp]), Region(0x187, [t.microcode]) ]
    case _ =>
      [ Region(0x180, [t.bootloader]), Region(0x181, [t.tee]),
        Region(0x186, [t.snp]), Region(0x187, [t.microcode]) ]
  }

  function Regions(c: Contents, layout: TcbLayout): seq<Region> {
    BodyRegions(c) + TcbRegions(c.tcb, layout)
    + (if c.version >= 3 then [Region(0x188, [c.cpuid.family, c.cpuid.model, c.cpuid.stepping])] else [])
  }

  lemma OrderedJoin(a: seq<Region>, mid: nat, b: seq<Region>, limit: nat)
    requires Ordered(a, mid) && Ordered(b, limit) && mid <= limit
    requires forall k | 0 <= k < |b| :: mid <= b[k].off
    ensures Ordered(a + b, limit)
  {
  }

  lemma RegionsOrdered(c: Contents, layout: TcbLayout)
    requires c.Fits()
    ensures Ordered(Regions(c, layout), REPORT_SIZE)
  {
    var tail := if c.version >= 3 then [Region(0x188, [c.cpuid.family, c.cpuid.model, c.cpuid.stepping])] else [];
    OrderedJoin(BodyRegions(c), 0x180, TcbRegions(c.tcb, layout), 0x188);
    OrderedJoin(BodyRegions(c) + TcbRegions(c.tcb, layout), 0x188, tail, REPORT_SIZE);
  }

  /** The report written over an arbitrary buffer. */
  function Write(buf: bytes, c: Contents, layout: TcbLayout): (b: bytes)
    requires |buf| == REPORT_SIZE && c.Fits()
    ensures |b| == REPORT_SIZE
  {
    RegionsOrdered(c, layout);
    PutAll(buf, Regions(c, layout))
  }

  lemma WrittenAt(buf: bytes, c: Contents, layout: TcbLayout, k: nat)
    requires |buf| == REPORT_SIZE && c.Fits() && k < |Regions(c, layout)|
    ensures var r := Regions(c, layout)[k];
            r.off + |r.content| <= REPORT_SIZE && At(Write(buf, c, layout), r.off, |r.content|) == r.content
  {
    RegionsOrdered(c, layout);
    PutAllReads(buf, Regions(c, layout), k);
  }

  lemma BodyWritten(buf: bytes, c: Contents, layout: TcbLayout)
    requires |buf| == REPORT_SIZE && c.Fits()
    ensures var d := Write(buf, c, layout);
            && VersionOf(d) == c.version
            && Le(At(d, 0x004, 4)) == c.guestSvn
            && Le(At(d, 0x008, 8)) == c.policy
            && At(d, 0x010, 16) == c.familyId
            && At(d, 0x020, 16) == c.imageId
            && Le(At(d, 0x030, 4)) == c.vmpl
  {
    LeOfLeBytes(c.version, 4);
    LeOfLeBytes(c.guestSvn, 4);
    LeOfLeBytes(c.policy, 8);
    LeOfLeBytes(c.vmpl, 4);
    WrittenAt(buf, c, layout, 0);
    WrittenAt(buf, c, layout, 1);
    WrittenAt(buf, c, layout, 2);
    WrittenAt(buf, c, layout, 3);
    WrittenAt(buf, c, layout, 4);
    WrittenAt(buf, c, layout, 5);
  }

  lemma DigestsWritten(buf: bytes, c: Contents, layout: TcbLayout)
    requires |buf| == REPORT_SIZE && c.Fits()
    ensures var d := Write(buf, c, layout);
            && At(d, 0x050, 64) == c.reportData
            && At(d, 0x090, 48) == c.measurement
            && At(d, 0x0C0, 32) == c.hostData
            && At(d, 0x0E0, 48) == c.idKeyDigest
            && At(d, 0x110, 48) == c.authorKeyDigest
            && At(d, 0x140, 32) == c.reportId
  {
    WrittenAt(buf, c, layout, 6);
    WrittenAt(buf, c, layout, 7);
    WrittenAt(buf, c, layout, 8);
    WrittenAt(buf, c, layout, 9);
    WrittenAt(buf, c, layout, 10);
    WrittenAt(buf, c, layout, 11);
  }

  predicate TcbFitsLayout(t: TcbVersion, layout: TcbLayout) {
    !layout.OtherLayout? && (t.fmc.Some? <==> layout.Turin?)
  }

  lemma TcbByteWritten(buf: bytes, c: Contents, layout: TcbLayout, j: nat)
    requires |buf| == REPORT_SIZE && c.Fits() && j < |TcbRegions(c.tcb, layout)|
    ensures var r := TcbRegions(c.tcb, layout)[j];
            |r.content| == 1 && r.off < REPORT_SIZE && Write(buf, c, layout)[r.off] == r.content[0]
  {
    WrittenAt(buf, c, layout, 12 + j);
    var r := Regions(c, layout)[12 + j];
    assert r == TcbRegions(c.tcb, layout)[j];
    assert At(Write(buf, c, layout), r.off, 1)[0] == Write(buf, c, layout)[r.off];
  }

  lemma TcbWritten(buf: bytes, c: Contents, layout: TcbLayout)
    requires |buf| == REPORT_SIZE && c.Fits() && TcbFitsLayout(c.tcb, layout)
    ensures DecodeTcb(At(Write(buf, c, layout), 0x180, 8), layout) == Some(c.tcb)
  {
    TcbByteWritten(buf, c, layout, 0);
    TcbByteWritten(buf, c, layout, 1);
    TcbByteWritten(buf, c, layout, 2);
    TcbByteWritten(buf, c, layout, 3);
    if layout.Turin? {
      TcbByteWritten(buf, c, layout, 4);
    }
  }

  lemma CpuidWritten(buf: bytes, c: Contents, layout: TcbLayout)
    requires |buf| == REPORT_SIZE && c.Fits()
    ensures CpuidOf(Write(buf, c, layout)) == if c.version >= 3 then Some(c.cpuid) else None
  {
    BodyWritten(buf, c, layout);
    if c.version >= 3 {
      var d := Write(buf, c, layout);
      var k := 12 + |TcbRegions(c.tcb, layout)|;
      WrittenAt(buf, c, layout, k);
      assert At(d, 0x188, 3)[0] == d[0x188] && At(d, 0x188, 3)[1] == d[0x189] && At(d, 0x188, 3)[2] == d[0x18A];
    }
  }

  /** The report that `c` stands for. */
  function Meaning(c: Contents, tcb: Option<TcbVersion>, generation: string, note: Option<CpuidNote>): Report {
    Report(c.version, c.guestSvn, c.policy, c.familyId, c.imageId, c.vmpl, c.reportData, c.measurement,
           c.hostData, c.idKeyDigest, c.authorKeyDigest, c.reportId,
           tcb, if c.version >= 3 then Some(c.cpuid) else None, generation, note, c.version !in KNOWN_VERSIONS)
  }

  /** Round trip. A report of any accepted version, written in place over any
      buffer with the TCB in the layout of generation `g`, parses to exactly the
      written fields: with `g` given as the host's, whenever the report's own
      CPUID does not name a different known generation. */
  lemma RoundTripOnHost(buf: bytes, c: Contents, g: Generation)
    requires |buf| == REPORT_SIZE && c.Fits() && c.version >= OLDEST && TcbFitsLayout(c.tcb, g.layout)
    requires c.version >= 3 ==> Resolve(c.cpuid.family, c.cpuid.model) in {None, Some(g)}
    ensures Parse(Write(buf, c, g.layout), Some(g)) ==
              Ok(Meaning(c, Some(c.tcb), g.name,
                         if c.version >= 3 && Resolve(c.cpuid.family, c.cpuid.model).None?
                         then Some(HostUsedInstead(c.cpuid, g.name)) else None))
  {
    BodyWritten(buf, c, g.layout);
    DigestsWritten(buf, c, g.layout);
    TcbWritten(buf, c, g.layout);
    CpuidWritten(buf, c, g.layout);
  }

  /** Without a host generation the report's own CPUID decides; when it cannot,
      every other field still round-trips and the TCB is left undecoded. */
  lemma RoundTripAlone(buf: bytes, c: Contents, layout: TcbLayout)
    requires |buf| == REPORT_SIZE && c.Fits() && c.version >= OLDEST && TcbFitsLayout(c.tcb, layout)
    requires c.version >= 3 && Resolve(c.cpuid.family, c.cpuid.model).Some? ==>
               Resolve(c.cpuid.family, c.cpuid.model).value.layout == layout
    ensures Parse(Write(buf, c, layout), None) ==
              if c.version < 3 then Ok(Meaning(c, None, "unknown", None))
              else match Resolve(c.cpuid.family, c.cpuid.model)
                   case Some(g) => Ok(Meaning(c, Some(c.tcb), g.name, None))
                   case None => Ok(Meaning(c, None, "unknown", Some(LeftUndecoded(c.cpuid))))
  {
    BodyWritten(buf, c, layout);
    DigestsWritten(buf, c, layout);
    TcbWritten(buf, c, layout);
    CpuidWritten(buf, c, layout);
  }

  // ── Generation coherence ──────────────────────────────────────

  /** When a report's own CPUID resolves to `g`, parsing without a host
      generation and parsing with `g` agree, and any other host is rejected. */
  lemma GenerationCoherent(data: bytes, h: Generation)
    requires |data| == REPORT_SIZE && VersionOf(data) >= 3 && Resolve(data[0x188], data[0x189]).Some?
    ensures var g := Resolve(data[0x188], data[0x189]).value;
            && Parse(data, None) == Parse(data, Some(g))
            && Parse(data, None).Ok?
            && (h != g ==> Parse(data, Some(h)) == Err(Foreign(CpuidOf(data).value, g, h)))
  {
    ResolveByRange(data[0x188], data[0x189]);
  }

  /** A parsed report has a decoded TCB exactly when a generation was available,
      from the host or from the report itself. */
  lemma TcbDecodedExactly(data: bytes, host: Option<Generation>)
    requires Parse(data, host).Ok?
    ensures Parse(data, host).report.reportedTcb.Some? <==>
              host.Some? || (VersionOf(data) >= 3 && Resolve(data[0x188], data[0x189]).Some?)
  {
  }

  /** Exactly which inputs are refused, and why. */
  lemma RefusedExactly(data: bytes, host: Option<Generation>)
    ensures Parse(data, host).Err? <==>
              || |data| != REPORT_SIZE
              || VersionOf(data) < 2
              || (host.Some? && VersionOf(data) >= 3 && Resolve(data[0x188], data[0x189]) !in {None, host})
              || (host.Some? && host.value.layout.OtherLayout?)
  {
    if |data| == REPORT_SIZE {
      ResolveByRange(data[0x188], data[0x189]);
    }
  }

  // ── Locality ──────────────────────────────────────────────────

  /** The bytes that the parser looks at. */
  predicate IsRead(i: nat) {
    i < 0x034 || 0x050 <= i < 0x160 || 0x180 <= i < 0x18B
  }

  lemma SameAt(a: bytes, b: bytes, off: nat, len: nat)
    requires |a| == |b| && off + len <= |a|
    requires forall i | off <= i < off + len :: a[i] == b[i]
    ensures At(a, off, len) == At(b, off, len)
  {
  }

  /** Reports that agree on those bytes parse alike. */
  lemma OnlyReadBytesMatter(a: bytes, b: bytes, host: Option<Generation>)
    requires |a| == |b| == REPORT_SIZE
    requires forall i | 0 <= i < REPORT_SIZE && IsRead(i) :: a[i] == b[i]
    ensures Parse(a, host) == Parse(b, host)
  {
    SameAt(a, b, 0x000, 4);
    SameAt(a, b, 0x004, 4);
    SameAt(a, b, 0x008, 8);
    SameAt(a, b, 0x010, 16);
    SameAt(a, b, 0x020, 16);
    SameAt(a, b, 0x030, 4);
    SameAt(a, b, 0x050, 64);
    SameAt(a, b, 0x090, 48);
    SameAt(a, b, 0x0C0, 32);
    SameAt(a, b, 0x0E0, 48);
    SameAt(a, b, 0x110, 48);
    SameAt(a, b, 0x140, 32);
    SameAt(a, b, 0x180, 8);
  }

  function WithVersion(p: Parsed, v: nat): Parsed {
    match p
    case Err(_) => p
    case Ok(r) => Ok(r.(version := v, newerVersion := v !in KNOWN_VERSIONS))
  }

  /** The append-only assumption: raising VERSION from 3 to any larger value
      changes nothing but the version and its note, for reports that are
      accepted and for reports that are refused alike. */
  lemma NewerVersionsReadAlike(data: bytes, v: nat, host: Option<Generation>)
    requires |data| == REPORT_SIZE && VersionOf(data) == 3 && 3 < v < Pow256(4)
    ensures Parse(Put(data, Region(0x000, LeBytes(v, 4))), host) == WithVersion(Parse(data, host), v)
  {
    var r := Region(0x000, LeBytes(v, 4));
    var d := Put(data, r);
    assert At(d, 0x000, 4) == LeBytes(v, 4);
    LeOfLeBytes(v, 4);
    assert forall i | 4 <= i < REPORT_SIZE :: d[i] == data[i];
    SameAt(d, data, 0x004, 4);
    SameAt(d, data, 0x008, 8);
    SameAt(d, data, 0x010, 16);
    SameAt(d, data, 0x020, 16);
    SameAt(d, data, 0x030, 4);
    SameAt(d, data, 0x050, 64);
    SameAt(d, data, 0x090, 48);
    SameAt(d, data, 0x0C0, 32);
    SameAt(d, data, 0x0E0, 48);
    SameAt(d, data, 0x110, 48);
    SameAt(d, data, 0x140, 32);
    SameAt(d, data, 0x180, 8);
  }
}
