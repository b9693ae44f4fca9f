// The libvirt domain of a VM. The document is a fixed template, chosen by role, GPU and
// read-only flag, whose holes are filled with the values of one request.
module DomainXml {
  import opened Decimal
  import opened XmlText

  datatype VmRole = GatewayVm | BrowserVm

  datatype GpuBackend = VirtioGpu | Software

  // The 32 hexadecimal digits of an instance id.
  type Uuid = s: string | |s| == 32 && forall c | c in s :: IsHex(c) witness seq(32, _ => '0')

  predicate IsHex(c: char) {
    '0' <= c <= '9' || 'a' <= c <= 'f'
  }

  datatype Request = Request(
    id: Uuid, role: VmRole, vcpus: nat, memoryMib: nat, backingImage: string, overlayPath: string,
    readOnlyRoot: bool, gpu: GpuBackend, isolatedNetwork: string)
  {
    function Name(): string {
      "inst-" + id[..8]
    }

    function Hyphenated(): string {
      id[..8] + "-" + id[8..12] + "-" + id[12..16] + "-" + id[16..20] + "-" + id[20..]
    }
  }

  const UPSTREAM_NETWORK := "default"

  const NIC: TagName := "interface"

  // ---- the template ------------------------------------------------------------------------

  datatype Key = DomainName | Id | Memory | Vcpus | Overlay | Backing | Isolated | Upstream | Mac | UpstreamMac

  datatype Part = Lit(s: InertText) | Hole(k: Key)

  datatype Slot =
    | Gap(text: InertText)
    | Inner(part: Part)
    | Start(name: TagName, attrs: seq<(TagName, Part)>)
    | Empty(name: TagName, attrs: seq<(TagName, Part)>)
    | End(name: TagName)

  function Identity(): seq<Slot> {
    [Start("domain", [("type", Lit("kvm"))]), Gap("\n  "),
     Start("name", []), Inner(Hole(DomainName)), End("name"), Gap("\n  "),
     Start("uuid", []), Inner(Hole(Id)), End("uuid"), Gap("\n  "),
     Start("memory", [("unit", Lit("MiB"))]), Inner(Hole(Memory)), End("memory"), Gap("\n  "),
     Start("currentMemory", [("unit", Lit("MiB"))]), Inner(Hole(Memory)), End("currentMemory"), Gap("\n  "),
     Start("vcpu", [("placement", Lit("static"))]), Inner(Hole(Vcpus)), End("vcpu"), Gap("\n  ")]
  }

  function Firmware(): seq<Slot> {
    [Start("os", []), Gap("\n    "),
     Start("type", [("arch", Lit("x86_64")), ("machine", Lit("q35"))]), Inner(Lit("hvm")), End("type"), Gap("\n    "),
     Empty("boot", [("dev", Lit("hd"))]), Gap("\n  "), End("os"), Gap("\n  ")]
  }

  function Features(): seq<Slot> {
    [Start("features", []), Gap("\n    "), Empty("acpi", []), Gap("\n    "), Empty("apic", []), Gap("\n  "),
     End("features"), Gap("\n  ")]
  }

  function Processor(): seq<Slot> {
    [Empty("cpu", [("mode", Lit("host-passthrough")), ("check", Lit("none"))]), Gap("\n  "),
     Empty("clock", [("offset", Lit("utc"))]), Gap("\n  ")]
  }

  function Lifecycle(): seq<Slot> {
    [Start("on_poweroff", []), Inner(Lit("destroy")), End("on_poweroff"), Gap("\n  "),
     Start("on_reboot", []), Inner(Lit("restart")), End("on_reboot"), Gap("\n  "),
     Start("on_crash", []), Inner(Lit("destroy")), End("on_crash"), Gap("\n  "),
     Start("devices", []), Gap("\n")]
  }

  function DiskSource(): seq<Slot> {
    [Gap("    "), Start("disk", [("type", Lit("file")), ("device", Lit("disk"))]), Gap("\n      "),
     Empty("driver", [("name", Lit("qemu")), ("type", Lit("qcow2"))]), Gap("\n      "),
     Start("source", [("file", Hole(Overlay))]), Gap("\n        ")]
  }

  function DiskBacking(): seq<Slot> {
    [Start("backingStore", [("type", Lit("file"))]), Gap("\n          "),
     Empty("format", [("type", Lit("qcow2"))]), Gap("\n          "),
     Empty("source", [("file", Hole(Backing))]), Gap("\n        "),
     End("backingStore"), Gap("\n      "), End("source"), Gap("\n      ")]
  }

  function DiskTarget(readOnly: bool): seq<Slot> {
    [Empty("target", [("dev", Lit("vda")), ("bus", Lit("virtio"))]), Gap("\n")]
    + (if readOnly then [Gap("      "), Empty("readonly", []), Gap("\n")] else [])
    + [Gap("    "), End("disk"), Gap("\n")]
  }

  function NicTail(): seq<Slot> {
    [Gap("\n      "), Empty("model", [("type", Lit("virtio"))]), Gap("\n    "), End(NIC), Gap("\n")]
  }

  function NicBody(network: Key, mac: Key): seq<Slot> {
    [Gap("\n      ")] + [Empty("mac", [("address", Hole(mac))])]
    + ([Gap("\n      ")] + [Empty("source", [("network", Hole(network))])] + NicTail())
  }

  function Interface(network: Key, mac: Key): seq<Slot> {
    [Gap("    ")] + [Start(NIC, [("type", Lit("network"))])] + NicBody(network, mac)
  }

  function Interfaces(role: VmRole): seq<Slot> {
    match role
    case BrowserVm => Interface(Isolated, Mac)
    case GatewayVm => Interface(Upstream, UpstreamMac) + Interface(Isolated, Mac)
  }

  function Video(gpu: GpuBackend): seq<Slot> {
    match gpu
    case VirtioGpu =>
      [Gap("    "), Start("video", []), Gap("\n      "),
       Start("model", [("type", Lit("virtio")), ("heads", Lit("1"))]), Gap("\n        "),
       Empty("acceleration", [("accel3d", Lit("no"))]), Gap("\n      "), End("model"), Gap("\n    "),
       End("video"), Gap("\n")]
    case Software =>
      [Gap("    "), Start("video", []), Gap("\n      "),
       Empty("model", [("type", Lit("vga")), ("vram", Lit("16384")), ("heads", Lit("1"))]), Gap("\n    "),
       End("video"), Gap("\n")]
  }

  function Graphics(): seq<Slot> {
    [Gap("    "), Empty("graphics", [("type", Lit("vnc")), ("port", Lit("-1")), ("autoport", Lit("yes")),
                                     ("listen", Lit("127.0.0.1"))]), Gap("\n    ")]
  }

  function Console(): seq<Slot> {
    [Start("console", [("type", Lit("pty"))]), Gap("\n      "),
     Empty("target", [("type", Lit("serial")), ("port", Lit("0"))]), Gap("\n    "), End("console"), Gap("\n    ")]
  }

  function Rng(): seq<Slot> {
    [Empty("memballoon", [("model", Lit("virtio"))]), Gap("\n    "),
     Start("rng", [("model", Lit("virtio"))]), Gap("\n      "),
     Start("backend", [("model", Lit("random"))]), Inner(Lit("/dev/urandom")), End("backend"), Gap("\n    ")]
  }

  function Closing(): seq<Slot> {
    [End("rng"), Gap("\n  "), End("devices"), Gap("\n"), End("domain"), Gap("\n")]
  }

  function Before(readOnly: bool): seq<Slot> {
    Identity() + Firmware() + Features() + Processor() + Lifecycle() + DiskSource() + DiskBacking()
      + DiskTarget(readOnly)
  }

  function After(gpu: GpuBackend): seq<Slot> {
    Video(gpu) + Graphics() + Console() + Rng() + Closing()
  }

  function Template(role: VmRole, gpu: GpuBackend, readOnly: bool): seq<Slot> {
    Before(readOnly) + Interfaces(role) + After(gpu)
  }

  // ---- filling it in -------------------------------------------------------------------------

  // Ids and numbers go in as they are; every free-form string is escaped.
  function ValueOf(req: Request, mac: string, upstreamMac: string, k: Key): string {
    match k
    case DomainName => req.Name()
    case Id => req.Hyphenated()
    case Memory => Show(req.memoryMib)
    case Vcpus => Show(req.vcpus)
    case Overlay => Escape(req.overlayPath)
    case Backing => Escape(req.backingImage)
    case Isolated => Escape(req.isolatedNetwork)
    case Upstream => Escape(UPSTREAM_NETWORK)
    case Mac => Escape(mac)
    case UpstreamMac => Escape(upstreamMac)
  }

  function Values(req: Request, mac: string, upstreamMac: string): Key -> string {
    k => ValueOf(req, mac, upstreamMac, k)
  }

  function FillPart(p: Part, values: Key -> string): string {
    match p
    case Lit(s) => s
    case Hole(k) => values(k)
  }

  function FillAttrs(attrs: seq<(TagName, Part)>, values: Key -> string): seq<(string, string)> {
    seq(|attrs|, i requires 0 <= i < |attrs| => (attrs[i].0, FillPart(attrs[i].1, values)))
  }

  function FillSlot(s: Slot, values: Key -> string): Piece {
    match s
    case Gap(t) => Text(t)
    case Inner(p) => Text(FillPart(p, values))
    case Start(n, attrs) => StartTag(n, FillAttrs(attrs, values))
    case Empty(n, attrs) => EmptyTag(n, FillAttrs(attrs, values))
    case End(n) => EndTag(n)
  }

  function Fill(t: seq<Slot>, values: Key -> string): seq<Piece> {
    seq(|t|, i requires 0 <= i < |t| => FillSlot(t[i], values))
  }

  function RenderDomainXmlWith(req: Request, mac: string, upstreamMac: string): string {
    SpellAll(Fill(Template(req.role, req.gpu, req.readOnlyRoot), Values(req, mac, upstreamMac)))
  }

  // ---- counting elements ------------------------------------------------------------------------

  predicate Opens(s: Slot, n: string) {
    (s.Start? || s.Empty?) && s.name == n
  }

  predicate NoneOpens(t: seq<Slot>, n: string) {
    forall i :: 0 <= i < |t| ==> !Opens(t[i], n)
  }

  const DEVICES := {NIC, "hostdev", "redirdev", "filesystem", "sound", "channel"}

  type DeviceName = n: string | n in DEVICES witness NIC

  function CountSlots(t: seq<Slot>, n: string): nat {
    if t == [] then 0 else CountSlots(t[..|t| - 1], n) + if Opens(t[|t| - 1], n) then 1 else 0
  }

  lemma {:induction false} CountConcat(a: seq<Slot>, b: seq<Slot>, n: string)
    ensures CountSlots(a + b, n) == CountSlots(a, n) + CountSlots(b, n)
    decreases |b|
  {
    if b == [] {
      assert a + b == a;
    } else {
      assert (a + b)[..|a + b| - 1] == a + b[..|b| - 1];
      CountConcat(a, b[..|b| - 1], n);
    }
  }

  lemma {:induction false} NoneMeansZero(t: seq<Slot>, n: string)
    requires NoneOpens(t, n)
    ensures CountSlots(t, n) == 0
    decreases |t|
  {
    if t != [] {
      NoneMeansZero(t[..|t| - 1], n);
    }
  }

  lemma IdentityHasNone(n: DeviceName)
    ensures NoneOpens(Identity(), n)
  {}

  lemma FirmwareHasNone(n: DeviceName)
    ensures NoneOpens(Firmware(), n) && NoneOpens(Features(), n)
  {}

  lemma ProcessorHasNone(n: DeviceName)
    ensures NoneOpens(Processor(), n) && NoneOpens(Lifecycle(), n)
  {}

  lemma DiskHasNone(readOnly: bool, n: DeviceName)
    ensures NoneOpens(DiskSource(), n) && NoneOpens(DiskBacking(), n) && NoneOpens(DiskTarget(readOnly), n)
  {}

  lemma VideoHasNone(gpu: GpuBackend, n: DeviceName)
    ensures NoneOpens(Video(gpu), n)
  {}

  lemma ConsoleHasNone(n: DeviceName)
    ensures NoneOpens(Graphics(), n) && NoneOpens(Console(), n) && NoneOpens(Rng(), n) && NoneOpens(Closing(), n)
  {}

  lemma BeforeHasNone(readOnly: bool, n: DeviceName)
    ensures NoneOpens(Before(readOnly), n)
  {
    hide Identity, Firmware, Features, Processor, Lifecycle, DiskSource, DiskBacking, DiskTarget;
    IdentityHasNone(n);
    FirmwareHasNone(n);
    ProcessorHasNone(n);
    DiskHasNone(readOnly, n);
  }

  lemma AfterHasNone(gpu: GpuBackend, n: DeviceName)
    ensures NoneOpens(After(gpu), n)
  {
    hide Video, Graphics, Console, Rng, Closing;
    VideoHasNone(gpu, n);
    ConsoleHasNone(n);
  }

  lemma NicBodiesHaveNone(n: DeviceName)
    ensures NoneOpens(NicBody(Isolated, Mac), n) && NoneOpens(NicBody(Upstream, UpstreamMac), n)
  {}

  lemma CountOne(s: Slot, n: string)
    ensures CountSlots([s], n) == if Opens(s, n) then 1 else 0
  {
    assert [s][..0] == [];
  }

  lemma InterfaceCount(network: Key, mac: Key, n: string)
    requires NoneOpens(NicBody(network, mac), n)
    ensures CountSlots(Interface(network, mac), n) == if n == NIC then 1 else 0
  {
    hide CountSlots, NicBody;
    var gap, nic := Gap("    "), Start(NIC, [("type", Lit("network"))]);
    NoneMeansZero(NicBody(network, mac), n);
    CountOne(gap, n);
    CountOne(nic, n);
    CountConcat([gap], [nic], n);
    CountConcat([gap] + [nic], NicBody(network, mac), n);
  }

  lemma TemplateCount(role: VmRole, gpu: GpuBackend, readOnly: bool, n: DeviceName)
    ensures CountSlots(Template(role, gpu, readOnly), n)
         == if n != NIC then 0 else if role == BrowserVm then 1 else 2
  {
    hide Before, After, Interface, NicBody;
    NicBodiesHaveNone(n);
    BeforeHasNone(readOnly, n);
    AfterHasNone(gpu, n);
    NoneMeansZero(Before(readOnly), n);
    NoneMeansZero(After(gpu), n);
    InterfaceCount(Isolated, Mac, n);
    InterfaceCount(Upstream, UpstreamMac, n);
    CountConcat(Interface(Upstream, UpstreamMac), Interface(Isolated, Mac), n);
    CountConcat(Before(readOnly) + Interfaces(role), After(gpu), n);
    CountConcat(Before(readOnly), Interfaces(role), n);
  }

  // ---- what a reader sees ---------------------------------------------------------------------

  ghost predicate AllInert(values: Key -> string) {
    forall k :: Inert(values(k))
  }

  lemma FilledIsOk(t: seq<Slot>, values: Key -> string)
    requires AllInert(values)
    ensures AllOk(Fill(t, values))
  {
    forall i | 0 <= i < |t|
      ensures PieceOk(Fill(t, values)[i])
    {
      FilledSlotIsOk(t[i], values);
    }
  }

  lemma FilledSlotIsOk(s: Slot, values: Key -> string)
    requires AllInert(values)
    ensures PieceOk(FillSlot(s, values))
  {
    match s
    case Gap(t) => assert Inert(t);
    case Inner(p) => assert Inert(FillPart(p, values));
    case Start(n, attrs) => FilledAttrsAreOk(attrs, values);
    case Empty(n, attrs) => FilledAttrsAreOk(attrs, values);
    case End(n) =>
  }

  lemma FilledAttrsAreOk(attrs: seq<(TagName, Part)>, values: Key -> string)
    requires AllInert(values)
    ensures AttrsOk(FillAttrs(attrs, values))
  {
    forall i | 0 <= i < |attrs|
      ensures NameOk(FillAttrs(attrs, values)[i].0) && Inert(FillAttrs(attrs, values)[i].1)
    {
      assert Inert(FillPart(attrs[i].1, values));
    }
  }

  lemma DigitsAreInert(s: string)
    requires forall c | c in s :: IsDigit(c)
    ensures Inert(s)
  {
    forall i | 0 <= i < |s|
      ensures s[i] != '<' && s[i] != '\''
    {
      assert s[i] in s;
    }
  }

  lemma IdsAreInert(req: Request)
    ensures Inert(req.Name()) && Inert(req.Hyphenated())
  {
    assert forall i :: 0 <= i < 32 ==> req.id[i] in req.id;
    assert Inert("inst-") && Inert("-");
    assert forall i, j :: 0 <= i <= j <= 32 ==> Inert(req.id[i..j]);
  }

  lemma ValuesAreInert(req: Request, mac: string, upstreamMac: string, k: Key)
    ensures Inert(ValueOf(req, mac, upstreamMac, k))
  {
    IdsAreInert(req);
    DigitsAreInert(Show(req.memoryMib));
    DigitsAreInert(Show(req.vcpus));
    EscapedIsInert(req.overlayPath);
    EscapedIsInert(req.backingImage);
    EscapedIsInert(req.isolatedNetwork);
    EscapedIsInert(UPSTREAM_NETWORK);
    EscapedIsInert(mac);
    EscapedIsInert(upstreamMac);
  }

  // Whatever strings are inserted, a reader of the document ends between tags and has
  // seen exactly the template's tags, with the inserted values as attribute values.
  lemma DocumentReadsBack(req: Request, mac: string, upstreamMac: string)
    ensures Read(START, RenderDomainXmlWith(req, mac, upstreamMac))
         == Reader(Content, AllTokens(Fill(Template(req.role, req.gpu, req.readOnlyRoot),
                                           Values(req, mac, upstreamMac))))
  {
    hide Template;
    var t, values := Template(req.role, req.gpu, req.readOnlyRoot), Values(req, mac, upstreamMac);
    forall k
      ensures Inert(values(k))
    {
      ValuesAreInert(req, mac, upstreamMac, k);
    }
    FilledIsOk(t, values);
    ReadAll(Fill(t, values));
  }

  // Element and attribute names only.
  function Skeleton(ts: seq<Token>): seq<Token> {
    if ts == [] then []
    else
      var last := ts[|ts| - 1];
      Skeleton(ts[..|ts| - 1])
      + (if last.Char? then [] else if last.Attribute? then [last.(value := "")] else [last])
  }

  lemma TokensNext(t: seq<Slot>, v: Key -> string)
    requires t != []
    ensures AllTokens(Fill(t, v)) == AllTokens(Fill(t[..|t| - 1], v)) + Tokens(FillSlot(t[|t| - 1], v))
  {
    assert Fill(t, v)[..|t| - 1] == Fill(t[..|t| - 1], v);
  }

  lemma {:induction false} SkeletonIgnoresValues(t: seq<Slot>, v: Key -> string, w: Key -> string)
    ensures Skeleton(AllTokens(Fill(t, v))) == Skeleton(AllTokens(Fill(t, w)))
    decreases |t|
  {
    if t != [] {
      var front, last := t[..|t| - 1], t[|t| - 1];
      hide FillSlot, Fill, Tokens, AllTokens;
      TokensNext(t, v);
      TokensNext(t, w);
      SkeletonIgnoresValues(front, v, w);
      SlotSkeleton(last, v, w);
      SkeletonConcat(AllTokens(Fill(front, v)), Tokens(FillSlot(last, v)));
      SkeletonConcat(AllTokens(Fill(front, w)), Tokens(FillSlot(last, w)));
    }
  }

  lemma {:induction false} SkeletonConcat(a: seq<Token>, b: seq<Token>)
    ensures Skeleton(a + b) == Skeleton(a) + Skeleton(b)
    decreases |b|
  {
    if b == [] {
      assert a + b == a;
    } else {
      assert (a + b)[..|a + b| - 1] == a + b[..|b| - 1];
      SkeletonConcat(a, b[..|b| - 1]);
    }
  }

  lemma {:induction false} CharsHaveNoSkeleton(s: string)
    ensures Skeleton(CharTokens(s)) == []
    decreases |s|
  {
    if s != "" {
      assert CharTokens(s)[..|s| - 1] == CharTokens(s[..|s| - 1]);
      CharsHaveNoSkeleton(s[..|s| - 1]);
    }
  }

  lemma SlotSkeleton(s: Slot, v: Key -> string, w: Key -> string)
    ensures Skeleton(Tokens(FillSlot(s, v))) == Skeleton(Tokens(FillSlot(s, w)))
  {
    hide Skeleton, FillAttrs, AttrTokens;
    match s {
      case Gap(_) =>
      case Inner(p) =>
        CharsHaveNoSkeleton(FillPart(p, v));
        CharsHaveNoSkeleton(FillPart(p, w));
      case End(_) =>
      case _ =>
        AttrSkeleton(s.attrs, v, w);
        var a, b := AttrTokens(FillAttrs(s.attrs, v)), AttrTokens(FillAttrs(s.attrs, w));
        SkeletonConcat([Token.Open(s.name)], a);
        SkeletonConcat([Token.Open(s.name)], b);
        SkeletonConcat([Token.Open(s.name)] + a, [Token.Close(s.name)]);
        SkeletonConcat([Token.Open(s.name)] + b, [Token.Close(s.name)]);
    }
  }

  lemma {:induction false} AttrSkeleton(attrs: seq<(TagName, Part)>, v: Key -> string, w: Key -> string)
    ensures Skeleton(AttrTokens(FillAttrs(attrs, v))) == Skeleton(AttrTokens(FillAttrs(attrs, w)))
    decreases |attrs|
  {
    if attrs != [] {
      var front, last := attrs[..|attrs| - 1], attrs[|attrs| - 1];
      AttrSkeleton(front, v, w);
      AttrTokensNext(attrs, v);
      AttrTokensNext(attrs, w);
    }
  }

  lemma AttrTokensNext(attrs: seq<(TagName, Part)>, v: Key -> string)
    requires attrs != []
    ensures var ts := AttrTokens(FillAttrs(attrs, v));
            && |ts| == |attrs| && ts[..|attrs| - 1] == AttrTokens(FillAttrs(attrs[..|attrs| - 1], v))
            && ts[|attrs| - 1] == Attribute(attrs[|attrs| - 1].0, FillPart(attrs[|attrs| - 1].1, v))
  {}

  // Two requests that agree on role, GPU and read-only root give documents with the same
  // elements and attribute names in the same order, whatever their strings hold.
  lemma StructureIsIndependentOfStrings(
      r: Request, mac: string, upstreamMac: string, q: Request, mac': string, upstreamMac': string)
    requires r.role == q.role && r.gpu == q.gpu && r.readOnlyRoot == q.readOnlyRoot
    ensures var a := Read(START, RenderDomainXmlWith(r, mac, upstreamMac));
            var b := Read(START, RenderDomainXmlWith(q, mac', upstreamMac'));
            && a.mode == Content && b.mode == Content && Skeleton(a.out) == Skeleton(b.out)
  {
    hide Template, RenderDomainXmlWith;
    DocumentReadsBack(r, mac, upstreamMac);
    DocumentReadsBack(q, mac', upstreamMac');
    SkeletonIgnoresValues(Template(r.role, r.gpu, r.readOnlyRoot), Values(r, mac, upstreamMac),
      Values(q, mac', upstreamMac'));
  }

  function CountOpens(ts: seq<Token>, n: string): nat {
    if ts == [] then 0 else CountOpens(ts[..|ts| - 1], n) + if ts[|ts| - 1] == Token.Open(n) then 1 else 0
  }

  lemma {:induction false} OpensConcat(a: seq<Token>, b: seq<Token>, n: string)
    ensures CountOpens(a + b, n) == CountOpens(a, n) + CountOpens(b, n)
    decreases |b|
  {
    if b == [] {
      assert a + b == a;
    } else {
      assert (a + b)[..|a + b| - 1] == a + b[..|b| - 1];
      OpensConcat(a, b[..|b| - 1], n);
    }
  }

  lemma {:induction false} NoOpens(ts: seq<Token>, n: string)
    requires forall i :: 0 <= i < |ts| ==> ts[i] != Token.Open(n)
    ensures CountOpens(ts, n) == 0
    decreases |ts|
  {
    if ts != [] {
      NoOpens(ts[..|ts| - 1], n);
    }
  }

  lemma OneOpen(m: string, n: string)
    ensures CountOpens([Token.Open(m)], n) == if m == n then 1 else 0
  {
    assert [Token.Open(m)][..0] == [];
  }

  lemma SlotOpens(s: Slot, v: Key -> string, n: string)
    ensures CountOpens(Tokens(FillSlot(s, v)), n) == if Opens(s, n) then 1 else 0
  {
    match s {
      case Gap(t) => NoOpens(CharTokens(t), n);
      case Inner(p) => NoOpens(CharTokens(FillPart(p, v)), n);
      case End(m) => NoOpens([Token.Close(m)], n);
      case Start(m, attrs) =>
        var a := AttrTokens(FillAttrs(attrs, v));
        NoOpens(a, n);
        OneOpen(m, n);
        OpensConcat([Token.Open(m)], a, n);
      case Empty(m, attrs) =>
        var a := AttrTokens(FillAttrs(attrs, v));
        NoOpens(a, n);
        OneOpen(m, n);
        OpensConcat([Token.Open(m)], a, n);
        NoOpens([Token.Close(m)], n);
        OpensConcat([Token.Open(m)] + a, [Token.Close(m)], n);
    }
  }

  lemma {:induction false} TemplateOpens(t: seq<Slot>, v: Key -> string, n: string)
    ensures CountOpens(AllTokens(Fill(t, v)), n) == CountSlots(t, n)
    decreases |t|
  {
    if t != [] {
      var front, last := t[..|t| - 1], t[|t| - 1];
      TokensNext(t, v);
      TemplateOpens(front, v, n);
      SlotOpens(last, v, n);
      OpensConcat(AllTokens(Fill(front, v)), Tokens(FillSlot(last, v)), n);
    }
  }

  // A reader finds exactly one interface for a browser and two for a gateway, and no
  // passthrough, redirection, host share, sound or agent channel for either.
  lemma DevicesOfTheDocument(req: Request, mac: string, upstreamMac: string, n: DeviceName)
    ensures CountOpens(Read(START, RenderDomainXmlWith(req, mac, upstreamMac)).out, n)
         == if n != NIC then 0 else if req.role == BrowserVm then 1 else 2
  {
    hide Template, RenderDomainXmlWith;
    DocumentReadsBack(req, mac, upstreamMac);
    TemplateOpens(Template(req.role, req.gpu, req.readOnlyRoot), Values(req, mac, upstreamMac), n);
    TemplateCount(req.role, req.gpu, req.readOnlyRoot, n);
  }
}
