/** TCB values, their printed fields, the comparison the test makes on those
    fields, and the `snphost config set` command line. */
module TcbValues {
  import opened Prelude
  import opened TcbText

  /** `fmc` exists on Turin only. */
  datatype Tcb = Tcb(bootLoader: nat, tee: nat, snp: nat, microcode: nat, fmc: Option<nat>)

  predicate SameCore(a: Tcb, b: Tcb) {
    a.bootLoader == b.bootLoader && a.tee == b.tee && a.snp == b.snp && a.microcode == b.microcode
  }

  predicate SameShape(a: Tcb, b: Tcb) {
    a.fmc.Some? == b.fmc.Some?
  }

  /** The componentwise order on the TCBs of one platform. */
  predicate AtMost(a: Tcb, b: Tcb) {
    && a.bootLoader <= b.bootLoader && a.tee <= b.tee
    && a.snp <= b.snp && a.microcode <= b.microcode
    && SameShape(a, b) && (a.fmc.Some? ==> a.fmc.value <= b.fmc.value)
  }

  // ── Fields ────────────────────────────────────────────────────

  /** The fields printed for a TCB. Without FMC a tool prints "None" or leaves
      the line out. */
  function TcbFields(t: Tcb, showNone: bool): seq<Field> {
    [Field("Microcode", Dec(t.microcode)), Field("SNP", Dec(t.snp)),
     Field("TEE", Dec(t.tee)), Field("Boot Loader", Dec(t.bootLoader))]
    + (if t.fmc.Some? then [Field("FMC", Dec(t.fmc.value))]
       else if showNone then [Field("FMC", "None")]
       else [])
  }

  function Listing(t: Tcb, showNone: bool): Fields {
    FieldsOf(TcbFields(t, showNone))
  }

  lemma ListingIs(t: Tcb, showNone: bool)
    ensures var m := Listing(t, showNone);
            && m.Keys == {"Microcode", "SNP", "TEE", "Boot Loader"}
                         + (if t.fmc.Some? || showNone then {"FMC"} else {})
            && m["Microcode"] == Dec(t.microcode)
            && m["SNP"] == Dec(t.snp)
            && m["TEE"] == Dec(t.tee)
            && m["Boot Loader"] == Dec(t.bootLoader)
            && (t.fmc.Some? ==> m["FMC"] == Dec(t.fmc.value))
            && (t.fmc.None? && showNone ==> m["FMC"] == "None")
  {
    var m4 := map["Microcode" := Dec(t.microcode), "SNP" := Dec(t.snp),
                  "TEE" := Dec(t.tee), "Boot Loader" := Dec(t.bootLoader)];
    var rest := if t.fmc.Some? then [Field("FMC", Dec(t.fmc.value))]
                else if showNone then [Field("FMC", "None")] else [];
    var fs := TcbFields(t, showNone);
    var m0: Fields := map[];
    var m1 := m0["Microcode" := Dec(t.microcode)];
    var m2 := m1["SNP" := Dec(t.snp)];
    var m3 := m2["TEE" := Dec(t.tee)];
    assert FieldsOnto(m0, fs) == FieldsOnto(m1, fs[1..]);
    assert fs[1..][0] == Field("SNP", Dec(t.snp));
    assert FieldsOnto(m1, fs[1..]) == FieldsOnto(m2, fs[1..][1..]);
    assert fs[1..][1..] == fs[2..] && fs[2..][0] == Field("TEE", Dec(t.tee));
    assert FieldsOnto(m2, fs[2..]) == FieldsOnto(m3, fs[2..][1..]);
    assert fs[2..][1..] == fs[3..] && fs[3..][0] == Field("Boot Loader", Dec(t.bootLoader));
    assert FieldsOnto(m3, fs[3..]) == FieldsOnto(m3["Boot Loader" := Dec(t.bootLoader)], fs[3..][1..]);
    assert fs[3..][1..] == rest;
    assert m3["Boot Loader" := Dec(t.bootLoader)] == m4;
    if rest != [] {
      assert rest[1..] == [];
      assert FieldsOnto(m4, rest) == m4["FMC" := rest[0].value];
    }
  }

  lemma NumberField(name: string, n: nat)
    requires FieldOk(Field(name, "0"))
    ensures FieldOk(Field(name, Dec(n)))
  {
  }

  lemma NamesOk()
    ensures FieldOk(Field("Microcode", "0")) && FieldOk(Field("SNP", "0")) && FieldOk(Field("TEE", "0"))
    ensures FieldOk(Field("Boot Loader", "0")) && FieldOk(Field("FMC", "0")) && FieldOk(Field("FMC", "None"))
  {
  }

  lemma TcbFieldsOk(t: Tcb, showNone: bool, name: string)
    requires SectionOk(Section(name, []))
    ensures SectionOk(Section(name, TcbFields(t, showNone)))
  {
    NamesOk();
    NumberField("Microcode", t.microcode);
    NumberField("SNP", t.snp);
    NumberField("TEE", t.tee);
    NumberField("Boot Loader", t.bootLoader);
    if t.fmc.Some? {
      NumberField("FMC", t.fmc.value);
    }
  }

  const CORE := ["Boot Loader", "TEE", "SNP", "Microcode"]

  /** `_tcb_fields_match`. */
  predicate TcbFieldsMatch(a: Fields, b: Fields) {
    && (forall f <- CORE :: f in a && f in b)
    && (forall f <- CORE + ["FMC"] :: f in a && f in b ==> a[f] == b[f])
  }

  predicate ListsFmc(t: Tcb, showNone: bool) {
    t.fmc.Some? || showNone
  }

  /** What the comparison decides about two listed TCBs: equal core components,
      and equal FMC where both listings mention it. */
  predicate Agree(a: Tcb, aNone: bool, b: Tcb, bNone: bool) {
    SameCore(a, b) && (ListsFmc(a, aNone) && ListsFmc(b, bNone) ==> a.fmc == b.fmc)
  }

  lemma MatchDecides(a: Tcb, aNone: bool, b: Tcb, bNone: bool)
    ensures TcbFieldsMatch(Listing(a, aNone), Listing(b, bNone)) <==> Agree(a, aNone, b, bNone)
  {
    ListingIs(a, aNone);
    ListingIs(b, bNone);
    DecInjective(a.bootLoader, b.bootLoader);
    DecInjective(a.tee, b.tee);
    DecInjective(a.snp, b.snp);
    DecInjective(a.microcode, b.microcode);
    if a.fmc.Some? && b.fmc.Some? {
      DecInjective(a.fmc.value, b.fmc.value);
    }
    assert "None"[0] == 'N' && !IsDigit('N');
    var x, y := Listing(a, aNone), Listing(b, bNone);
    assert CORE[0] in CORE && CORE[1] in CORE && CORE[2] in CORE && CORE[3] in CORE;
    assert (forall f <- CORE + ["FMC"] :: f in x && f in y ==> x[f] == y[f]) <==>
           SameCore(a, b) && ("FMC" in x && "FMC" in y ==> x["FMC"] == y["FMC"]) by {
      var all := CORE + ["FMC"];
      assert all[0] in all && all[1] in all && all[2] in all && all[3] in all && all[4] in all;
    }
  }

  /** On one platform, where FMC is present in both TCBs or in neither, the
      comparison of the listings decides equality of the TCBs. */
  lemma MatchDecidesEquality(a: Tcb, aNone: bool, b: Tcb, bNone: bool)
    requires SameShape(a, b)
    ensures TcbFieldsMatch(Listing(a, aNone), Listing(b, bNone)) <==> a == b
  {
    MatchDecides(a, aNone, b, bNone);
  }

  // ── Reading the platform TCB and lowering it ──────────────────

  function ParseField(m: Fields, name: string): Option<nat> {
    if name in m then ParseDec(m[name]) else None
  }

  /** The values `steps()` takes from the Platform section; `None` where the
      source raises on a missing or non-numeric field. */
  function ReadTcb(m: Fields): Option<Tcb> {
    match (ParseField(m, "Boot Loader"), ParseField(m, "TEE"), ParseField(m, "SNP"), ParseField(m, "Microcode"))
    case (Some(bl), Some(tee), Some(snp), Some(ucode)) =>
      if "FMC" !in m || m["FMC"] == "" || m["FMC"] == "None" then Some(Tcb(bl, tee, snp, ucode, None))
      else
        (match ParseDec(m["FMC"])
         case Some(fmc) => Some(Tcb(bl, tee, snp, ucode, Some(fmc)))
         case None => None)
    case _ => None
  }

  lemma ReadInvertsListing(t: Tcb, showNone: bool)
    ensures ReadTcb(Listing(t, showNone)) == Some(t)
  {
    ListingIs(t, showNone);
    ParseDecOfDec(t.bootLoader);
    ParseDecOfDec(t.tee);
    ParseDecOfDec(t.snp);
    ParseDecOfDec(t.microcode);
    if t.fmc.Some? {
      ParseDecOfDec(t.fmc.value);
      assert IsDigit(Dec(t.fmc.value)[0]);
      assert "None"[0] == 'N';
    }
  }

  /** The single-field lowering: the first non-zero of BL, SNP, TEE, microcode. */
  function Lower(t: Tcb): Option<Tcb> {
    if t.bootLoader > 0 then Some(t.(bootLoader := t.bootLoader - 1))
    else if t.snp > 0 then Some(t.(snp := t.snp - 1))
    else if t.tee > 0 then Some(t.(tee := t.tee - 1))
    else if t.microcode > 0 then Some(t.(microcode := t.microcode - 1))
    else None
  }

  function CoreSum(t: Tcb): nat {
    t.bootLoader + t.tee + t.snp + t.microcode
  }

  /** Lowering is possible iff some core component is non-zero; it takes one
      off exactly one component and stays strictly below the original. */
  lemma LowerIsOneStepDown(t: Tcb)
    ensures Lower(t).Some? <==> CoreSum(t) > 0
    ensures Lower(t).Some? ==>
              var lo := Lower(t).value;
              && AtMost(lo, t) && lo.fmc == t.fmc
              && CoreSum(lo) == CoreSum(t) - 1
              && (lo.bootLoader == t.bootLoader ==> t.bootLoader == 0)
              && (lo.tee < t.tee ==> t.snp == 0)
              && (lo.microcode < t.microcode ==> t.tee == 0 && t.snp == 0)
  {
  }

  // ── The command line ──────────────────────────────────────────

  /** `_config_set`: BL TEE SNP UCODE MASK_CHIP [FMC]. */
  function ConfigSet(t: Tcb, mask: nat): string {
    var command := "snphost config set "
                   + Dec(t.bootLoader) + " " + Dec(t.tee) + " " + Dec(t.snp) + " " + Dec(t.microcode) + " " + Dec(mask);
    if t.fmc.Some? then command + " " + Dec(t.fmc.value) else command
  }

  /** How the tool reads its arguments. */
  function ParseConfigSet(command: string): Option<(Tcb, nat)> {
    var ws := SplitOn(command, ' ');
    if (|ws| == 8 || |ws| == 9) && ws[..3] == ["snphost", "config", "set"] then
      match (ParseDec(ws[3]), ParseDec(ws[4]), ParseDec(ws[5]), ParseDec(ws[6]), ParseDec(ws[7]))
      case (Some(bl), Some(tee), Some(snp), Some(ucode), Some(mask)) =>
        if |ws| == 8 then Some((Tcb(bl, tee, snp, ucode, None), mask))
        else
          (match ParseDec(ws[8])
           case Some(fmc) => Some((Tcb(bl, tee, snp, ucode, Some(fmc)), mask))
           case None => None)
      case _ => None
    else None
  }

  function JoinWords(ws: seq<string>): string
    requires ws != []
  {
    if |ws| == 1 then ws[0] else ws[0] + [' '] + JoinWords(ws[1..])
  }

  lemma {:induction false} SplitJoined(ws: seq<string>)
    requires ws != [] && forall i | 0 <= i < |ws| :: ' ' !in ws[i]
    ensures SplitOn(JoinWords(ws), ' ') == ws
    decreases |ws|
  {
    if |ws| == 1 {
      SplitOnNone(ws[0], ' ');
    } else {
      SplitOnHead(ws[0], ' ', JoinWords(ws[1..]));
      SplitJoined(ws[1..]);
      assert [ws[0]] + ws[1..] == ws;
    }
  }

  function ConfigSetWords(t: Tcb, mask: nat): seq<string> {
    ["snphost", "config", "set", Dec(t.bootLoader), Dec(t.tee), Dec(t.snp), Dec(t.microcode), Dec(mask)]
    + (if t.fmc.Some? then [Dec(t.fmc.value)] else [])
  }

  /** Moving the first word of a list over to the text before it. */
  lemma Push(p: string, ws: seq<string>, i: nat)
    requires i + 1 < |ws|
    ensures p + JoinWords(ws[i..]) == p + ws[i] + " " + JoinWords(ws[i + 1..])
  {
  }

  lemma PushLast(p: string, ws: seq<string>, i: nat)
    requires i + 1 == |ws|
    ensures p + JoinWords(ws[i..]) == p + ws[i]
  {
  }

  lemma ConfigSetJoins(t: Tcb, mask: nat)
    ensures ConfigSet(t, mask) == JoinWords(ConfigSetWords(t, mask))
  {
    var ws := ConfigSetWords(t, mask);
    assert ws[0..] == ws && "" + JoinWords(ws) == JoinWords(ws);
    Push("", ws, 0);
    assert "" + ws[0] + " " == "snphost ";
    Push("snphost ", ws, 1);
    assert "snphost " + ws[1] + " " == "snphost config ";
    Push("snphost config ", ws, 2);
    var p := "snphost config " + ws[2] + " ";
    assert p == "snphost config set ";
    Push(p, ws, 3);
    Push(p + ws[3] + " ", ws, 4);
    Push(p + ws[3] + " " + ws[4] + " ", ws, 5);
    Push(p + ws[3] + " " + ws[4] + " " + ws[5] + " ", ws, 6);
    var q := p + ws[3] + " " + ws[4] + " " + ws[5] + " " + ws[6] + " ";
    if t.fmc.Some? {
      Push(q, ws, 7);
      PushLast(q + ws[7] + " ", ws, 8);
    } else {
      PushLast(q, ws, 7);
    }
  }

  /** The tool reads back exactly the TCB and mask the command was built from. */
  lemma ConfigSetRoundTrip(t: Tcb, mask: nat)
    ensures ParseConfigSet(ConfigSet(t, mask)) == Some((t, mask))
  {
    var ws := ConfigSetWords(t, mask);
    ConfigSetJoins(t, mask);
    forall i | 0 <= i < |ws|
      ensures ' ' !in ws[i]
    {
      if i >= 3 {
        assert forall c <- ws[i] :: IsDigit(c);
      }
    }
    SplitJoined(ws);
    assert ws[..3] == ["snphost", "config", "set"];
    ParseDecOfDec(t.bootLoader);
    ParseDecOfDec(t.tee);
    ParseDecOfDec(t.snp);
    ParseDecOfDec(t.microcode);
    ParseDecOfDec(mask);
    if t.fmc.Some? {
      ParseDecOfDec(t.fmc.value);
    }
  }
}
