// What a reader of the domain document finds in the attributes that carry a request's
// free-form strings.
module DomainValues {
  import opened XmlText
  import opened DomainXml

  // ---- attributes by name, in the text and in the template --------------------------------

  // The unescaped values of all attributes of one name, in document order.
  function ValuesNamed(ts: seq<Token>, n: string): seq<string> {
    if ts == [] then []
    else
      var last := ts[|ts| - 1];
      ValuesNamed(ts[..|ts| - 1], n) + if last.Attribute? && last.name == n then [Unescape(last.value)] else []
  }

  function AttrParts(attrs: seq<(TagName, Part)>, n: string): seq<Part> {
    if attrs == [] then []
    else
      var last := attrs[|attrs| - 1];
      AttrParts(attrs[..|attrs| - 1], n) + if last.0 == n then [last.1] else []
  }

  function SlotParts(s: Slot, n: string): seq<Part> {
    if s.Start? || s.Empty? then AttrParts(s.attrs, n) else []
  }

  function PartsNamed(t: seq<Slot>, n: string): seq<Part> {
    if t == [] then [] else PartsNamed(t[..|t| - 1], n) + SlotParts(t[|t| - 1], n)
  }

  // What parts mean once filled in and read.
  function Meant(parts: seq<Part>, v: Key -> string): seq<string> {
    seq(|parts|, i requires 0 <= i < |parts| => Unescape(FillPart(parts[i], v)))
  }

  lemma MeantConcat(a: seq<Part>, b: seq<Part>, v: Key -> string)
    ensures Meant(a + b, v) == Meant(a, v) + Meant(b, v)
  {
    hide Unescape;
  }

  lemma {:induction false} NamedConcat(a: seq<Token>, b: seq<Token>, n: string)
    ensures ValuesNamed(a + b, n) == ValuesNamed(a, n) + ValuesNamed(b, n)
    decreases |b|
  {
    hide Unescape;
    if b == [] {
      assert a + b == a;
    } else {
      assert (a + b)[..|a + b| - 1] == a + b[..|b| - 1];
      NamedConcat(a, b[..|b| - 1], n);
    }
  }

  lemma OneToken(t: Token, n: string)
    requires !t.Attribute?
    ensures ValuesNamed([t], n) == []
  {
    assert [t][..0] == [];
  }

  lemma {:induction false} NoValues(s: string, n: string)
    ensures ValuesNamed(CharTokens(s), n) == []
    decreases |s|
  {
    if s != "" {
      assert CharTokens(s)[..|s| - 1] == CharTokens(s[..|s| - 1]);
      NoValues(s[..|s| - 1], n);
    }
  }

  lemma {:induction false} AttrsMean(attrs: seq<(TagName, Part)>, v: Key -> string, n: string)
    ensures ValuesNamed(AttrTokens(FillAttrs(attrs, v)), n) == Meant(AttrParts(attrs, n), v)
    decreases |attrs|
  {
    hide Unescape;
    if attrs != [] {
      var front, last := attrs[..|attrs| - 1], attrs[|attrs| - 1];
      AttrsMean(front, v, n);
      assert AttrTokens(FillAttrs(attrs, v))[..|attrs| - 1] == AttrTokens(FillAttrs(front, v));
      MeantConcat(AttrParts(front, n), if last.0 == n then [last.1] else [], v);
    }
  }

  lemma SlotMeans(s: Slot, v: Key -> string, n: string)
    ensures ValuesNamed(Tokens(FillSlot(s, v)), n) == Meant(SlotParts(s, n), v)
  {
    hide Unescape, AttrParts, Meant, FillAttrs, AttrTokens, FillPart, ValuesNamed;
    match s {
      case Gap(t) => NoValues(t, n); NothingMeant(v);
      case Inner(p) => NoValues(FillPart(p, v), n); NothingMeant(v);
      case End(m) => OneToken(Token.Close(m), n); NothingMeant(v);
      case Start(m, attrs) => OpenedMeans(m, attrs, v, n);
      case Empty(m, attrs) =>
        OneToken(Token.Close(m), n);
        OpenedMeans(m, attrs, v, n);
        NamedConcat([Token.Open(m)] + AttrTokens(FillAttrs(attrs, v)), [Token.Close(m)], n);
    }
  }

  lemma OpenedMeans(m: TagName, attrs: seq<(TagName, Part)>, v: Key -> string, n: string)
    ensures ValuesNamed([Token.Open(m)] + AttrTokens(FillAttrs(attrs, v)), n) == Meant(AttrParts(attrs, n), v)
  {
    hide Unescape, AttrParts, Meant, ValuesNamed;
    OneToken(Token.Open(m), n);
    AttrsMean(attrs, v, n);
    NamedConcat([Token.Open(m)], AttrTokens(FillAttrs(attrs, v)), n);
  }

  lemma NothingMeant(v: Key -> string)
    ensures Meant([], v) == []
  {}

  // The attributes of one name in a filled template are its parts of that name, filled.
  lemma {:induction false} TemplateMeans(t: seq<Slot>, v: Key -> string, n: string)
    ensures ValuesNamed(AllTokens(Fill(t, v)), n) == Meant(PartsNamed(t, n), v)
    decreases |t|
  {
    hide SlotParts, Meant, FillSlot, Tokens;
    if t == [] {
      NothingMeant(v);
    } else {
      var front, last := t[..|t| - 1], t[|t| - 1];
      TokensNext(t, v);
      TemplateMeans(front, v, n);
      SlotMeans(last, v, n);
      NamedConcat(AllTokens(Fill(front, v)), Tokens(FillSlot(last, v)), n);
      MeantConcat(PartsNamed(front, n), SlotParts(last, n), v);
    }
  }

  // ---- where the template has such attributes ----------------------------------------------

  const HOLED := {"file", "network", "address"}

  type HoledName = n: string | n in HOLED witness "file"

  predicate HasAttr(s: Slot, n: string) {
    (s.Start? || s.Empty?) && exists j :: 0 <= j < |s.attrs| && s.attrs[j].0 == n
  }

  predicate NoneHas(t: seq<Slot>, n: string) {
    forall i :: 0 <= i < |t| ==> !HasAttr(t[i], n)
  }

  lemma {:induction false} NoAttrParts(attrs: seq<(TagName, Part)>, n: string)
    requires forall j :: 0 <= j < |attrs| ==> attrs[j].0 != n
    ensures AttrParts(attrs, n) == []
    decreases |attrs|
  {
    if attrs != [] {
      NoAttrParts(attrs[..|attrs| - 1], n);
    }
  }

  lemma {:induction false} NoneHasParts(t: seq<Slot>, n: string)
    requires NoneHas(t, n)
    ensures PartsNamed(t, n) == []
    decreases |t|
  {
    if t != [] {
      NoneHasParts(t[..|t| - 1], n);
      var last := t[|t| - 1];
      if last.Start? || last.Empty? {
        assert !HasAttr(last, n);
        NoAttrParts(last.attrs, n);
      }
    }
  }

  lemma {:induction false} PartsConcat(a: seq<Slot>, b: seq<Slot>, n: string)
    ensures PartsNamed(a + b, n) == PartsNamed(a, n) + PartsNamed(b, n)
    decreases |b|
  {
    hide SlotParts;
    if b == [] {
      assert a + b == a;
    } else {
      assert (a + b)[..|a + b| - 1] == a + b[..|b| - 1];
      PartsConcat(a, b[..|b| - 1], n);
    }
  }

  lemma OneSlot(s: Slot, n: string)
    ensures PartsNamed([s], n) == SlotParts(s, n)
  {
    assert [s][..0] == [];
  }

  lemma OneAttr(a: TagName, p: Part, n: string)
    ensures AttrParts([(a, p)], n) == if a == n then [p] else []
  {
    assert [(a, p)][..0] == [];
  }

  lemma HeadHasNone(n: HoledName)
    ensures NoneHas(Identity(), n) && NoneHas(Features(), n) && NoneHas(Processor(), n)
  {}

  lemma FirmwareHasNoHole(n: HoledName)
    ensures NoneHas(Firmware(), n) && NoneHas(Lifecycle(), n)
  {}

  lemma TargetHasNoHole(readOnly: bool, n: HoledName)
    ensures NoneHas(DiskTarget(readOnly), n)
  {}

  lemma VideoHasNoHole(gpu: GpuBackend, n: HoledName)
    ensures NoneHas(Video(gpu), n)
  {}

  lemma GraphicsHasNoHole(n: HoledName)
    ensures NoneHas(Graphics(), n) && NoneHas(Console(), n)
  {}

  lemma TailHasNoHole(n: HoledName)
    ensures NoneHas(Rng(), n) && NoneHas(DomainXml.Closing(), n)
  {}

  // One slot with one attribute of interest, between slots with none.
  lemma OneHole(before: seq<Slot>, s: Slot, after: seq<Slot>, a: TagName, p: Part, n: string)
    requires NoneHas(before, n) && NoneHas(after, n)
    requires (s.Start? || s.Empty?) && s.attrs == [(a, p)]
    ensures PartsNamed(before + [s] + after, n) == if a == n then [p] else []
  {
    hide NoneHas;
    NoneHasParts(before, n);
    NoneHasParts(after, n);
    OneSlot(s, n);
    OneAttr(a, p, n);
    PartsConcat(before, [s], n);
    PartsConcat(before + [s], after, n);
  }

  lemma SourceParts(n: HoledName)
    ensures PartsNamed(DiskSource(), n) == if n == "file" then [Hole(Overlay)] else []
  {
    var t := DiskSource();
    assert t == t[..5] + [t[5]] + t[6..];
    OneHole(t[..5], t[5], t[6..], "file", Hole(Overlay), n);
  }

  lemma AroundBackingHasNoHole(n: HoledName)
    ensures var t := DiskBacking(); |t| == 10 && NoneHas(t[..4], n) && NoneHas(t[5..], n)
  {}

  lemma BackingParts(n: HoledName)
    ensures PartsNamed(DiskBacking(), n) == if n == "file" then [Hole(Backing)] else []
  {
    hide NoneHas, PartsNamed;
    var t := DiskBacking();
    AroundBackingHasNoHole(n);
    assert t == t[..4] + [t[4]] + t[5..];
    OneHole(t[..4], t[4], t[5..], "file", Hole(Backing), n);
  }

  lemma NicTailHasNoHole(n: HoledName)
    ensures NoneHas([Gap("\n      ")], n) && NoneHas([], n) && NoneHas(NicTail(), n)
  {}

  lemma NicParts(network: Key, mac: Key, n: HoledName)
    ensures PartsNamed(NicBody(network, mac), n)
         == if n == "address" then [Hole(mac)] else if n == "network" then [Hole(network)] else []
  {
    hide PartsNamed, NicTail, NoneHas;
    var gap, address, source := Gap("\n      "), Empty("mac", [("address", Hole(mac))]),
      Empty("source", [("network", Hole(network))]);
    NicTailHasNoHole(n);
    OneHole([gap], address, [], "address", Hole(mac), n);
    assert [gap] + [address] + [] == [gap] + [address];
    OneHole([gap], source, NicTail(), "network", Hole(network), n);
    PartsConcat([gap] + [address], [gap] + [source] + NicTail(), n);
  }

  lemma InterfaceParts(network: Key, mac: Key, n: HoledName)
    ensures PartsNamed(Interface(network, mac), n)
         == if n == "address" then [Hole(mac)] else if n == "network" then [Hole(network)] else []
  {
    hide NicBody, PartsNamed;
    var gap, nic := Gap("    "), Start(NIC, [("type", Lit("network"))]);
    NicParts(network, mac, n);
    OneHole([gap], nic, [], "type", Lit("network"), n);
    assert [gap] + [nic] + [] == [gap] + [nic];
    PartsConcat([gap] + [nic], NicBody(network, mac), n);
  }

  lemma BeforeParts(readOnly: bool, n: HoledName)
    ensures PartsNamed(Before(readOnly), n) == if n == "file" then [Hole(Overlay), Hole(Backing)] else []
  {
    hide Identity, Firmware, Features, Processor, Lifecycle, DiskSource, DiskBacking, DiskTarget, PartsNamed, NoneHas;
    HeadHasNone(n);
    FirmwareHasNoHole(n);
    TargetHasNoHole(readOnly, n);
    NoneHasParts(Identity(), n);
    NoneHasParts(Firmware(), n);
    NoneHasParts(Features(), n);
    NoneHasParts(Processor(), n);
    NoneHasParts(Lifecycle(), n);
    NoneHasParts(DiskTarget(readOnly), n);
    SourceParts(n);
    BackingParts(n);
    PartsConcat(Identity(), Firmware(), n);
    PartsConcat(Identity() + Firmware(), Features(), n);
    PartsConcat(Identity() + Firmware() + Features(), Processor(), n);
    PartsConcat(Identity() + Firmware() + Features() + Processor(), Lifecycle(), n);
    PartsConcat(Identity() + Firmware() + Features() + Processor() + Lifecycle(), DiskSource(), n);
    PartsConcat(Identity() + Firmware() + Features() + Processor() + Lifecycle() + DiskSource(), DiskBacking(), n);
    PartsConcat(Identity() + Firmware() + Features() + Processor() + Lifecycle() + DiskSource() + DiskBacking(),
                DiskTarget(readOnly), n);
  }

  lemma AfterParts(gpu: GpuBackend, n: HoledName)
    ensures PartsNamed(After(gpu), n) == []
  {
    hide Video, Graphics, Console, Rng, DomainXml.Closing, PartsNamed, HasAttr;
    VideoHasNoHole(gpu, n);
    GraphicsHasNoHole(n);
    TailHasNoHole(n);
    NoneHasParts(After(gpu), n);
  }

  // The parts named "file", "network" and "address" of the whole template.
  function HolesOf(role: VmRole, n: string): seq<Part> {
    if n == "file" then [Hole(Overlay), Hole(Backing)]
    else if n == "network" then (if role == GatewayVm then [Hole(Upstream)] else []) + [Hole(Isolated)]
    else (if role == GatewayVm then [Hole(UpstreamMac)] else []) + [Hole(Mac)]
  }

  lemma TemplateParts(role: VmRole, gpu: GpuBackend, readOnly: bool, n: HoledName)
    ensures PartsNamed(Template(role, gpu, readOnly), n) == HolesOf(role, n)
  {
    hide Before, After, Interface, PartsNamed;
    BeforeParts(readOnly, n);
    AfterParts(gpu, n);
    InterfaceParts(Isolated, Mac, n);
    InterfaceParts(Upstream, UpstreamMac, n);
    PartsConcat(Interface(Upstream, UpstreamMac), Interface(Isolated, Mac), n);
    PartsConcat(Before(readOnly) + Interfaces(role), After(gpu), n);
    PartsConcat(Before(readOnly), Interfaces(role), n);
  }

  lemma FilledMeans(req: Request, mac: string, upstreamMac: string)
    ensures var v := Values(req, mac, upstreamMac);
            && Unescape(FillPart(Hole(Overlay), v)) == req.overlayPath
            && Unescape(FillPart(Hole(Backing), v)) == req.backingImage
            && Unescape(FillPart(Hole(Isolated), v)) == req.isolatedNetwork
            && Unescape(FillPart(Hole(Upstream), v)) == UPSTREAM_NETWORK
            && Unescape(FillPart(Hole(Mac), v)) == mac && Unescape(FillPart(Hole(UpstreamMac), v)) == upstreamMac
  {
    hide Escape, Unescape;
    EscapeRoundTrip(req.overlayPath);
    EscapeRoundTrip(req.backingImage);
    EscapeRoundTrip(req.isolatedNetwork);
    EscapeRoundTrip(UPSTREAM_NETWORK);
    EscapeRoundTrip(mac);
    EscapeRoundTrip(upstreamMac);
  }

  // What a reader of the whole document finds, unescaped: the two files, the networks
  // and the addresses of its interfaces, each exactly the string of the request, each
  // in its place, and no others.
  lemma FreeFormValuesSurvive(req: Request, mac: string, upstreamMac: string)
    ensures var out := Read(START, RenderDomainXmlWith(req, mac, upstreamMac)).out;
            var gateway := req.role == GatewayVm;
            && ValuesNamed(out, "file") == [req.overlayPath, req.backingImage]
            && ValuesNamed(out, "network") == (if gateway then [UPSTREAM_NETWORK] else []) + [req.isolatedNetwork]
            && ValuesNamed(out, "address") == (if gateway then [upstreamMac] else []) + [mac]
  {
    hide Template, RenderDomainXmlWith, ValuesNamed, PartsNamed, Unescape, FillPart, Values, Read, Fill, AllTokens;
    var t, v := Template(req.role, req.gpu, req.readOnlyRoot), Values(req, mac, upstreamMac);
    DocumentReadsBack(req, mac, upstreamMac);
    FilledMeans(req, mac, upstreamMac);
    TemplateMeans(t, v, "file");
    TemplateParts(req.role, req.gpu, req.readOnlyRoot, "file");
    TemplateMeans(t, v, "network");
    TemplateParts(req.role, req.gpu, req.readOnlyRoot, "network");
    TemplateMeans(t, v, "address");
    TemplateParts(req.role, req.gpu, req.readOnlyRoot, "address");
  }
}
