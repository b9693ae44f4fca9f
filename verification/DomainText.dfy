// What a reader of the domain document finds as the text of its elements, and in the
// attributes that keep the machine closed.
module DomainText {
  import opened Decimal
  import opened XmlText
  import opened DomainXml
  import opened DomainValues

  // ---- the text of elements --------------------------------------------------------------

  // The text after the last tag.
  function Trailing(ts: seq<Token>): string {
    if ts == [] || !ts[|ts| - 1].Char? then "" else Trailing(ts[..|ts| - 1]) + [ts[|ts| - 1].c]
  }

  // The text right before each end tag of one name, in document order.
  function TextsNamed(ts: seq<Token>, n: string): seq<string> {
    if ts == [] then []
    else
      TextsNamed(ts[..|ts| - 1], n)
      + if ts[|ts| - 1] == Token.Close(n) then [Trailing(ts[..|ts| - 1])] else []
  }

  predicate NoneEnds(ts: seq<Token>, n: string) {
    forall i :: 0 <= i < |ts| ==> ts[i] != Token.Close(n)
  }

  lemma {:induction false} NoTexts(a: seq<Token>, b: seq<Token>, n: string)
    requires NoneEnds(b, n)
    ensures TextsNamed(a + b, n) == TextsNamed(a, n)
    decreases |b|
  {
    if b == [] {
      assert a + b == a;
    } else {
      assert (a + b)[..|a + b| - 1] == a + b[..|b| - 1];
      NoTexts(a, b[..|b| - 1], n);
    }
  }

  lemma {:induction false} TrailingText(a: seq<Token>, s: string)
    requires a != [] && !a[|a| - 1].Char?
    ensures Trailing(a + CharTokens(s)) == s
    decreases |s|
  {
    var b := CharTokens(s);
    if s == "" {
      assert a + b == a;
    } else {
      assert (a + b)[..|a + b| - 1] == a + CharTokens(s[..|s| - 1]);
      TrailingText(a, s[..|s| - 1]);
    }
  }

  // An element holding only text, the first and last of its name.
  lemma LeafText(a: seq<Token>, s: string, b: seq<Token>, n: string)
    requires a != [] && !a[|a| - 1].Char? && NoneEnds(a, n) && NoneEnds(b, n)
    ensures TextsNamed(a + CharTokens(s) + [Token.Close(n)] + b, n) == [s]
  {
    var before := a + CharTokens(s);
    NoTexts([], before, n);
    assert [] + before == before;
    TrailingText(a, s);
    assert (before + [Token.Close(n)])[..|before|] == before;
    NoTexts(before + [Token.Close(n)], b, n);
  }

  // ---- where the template has such elements --------------------------------------------------

  predicate Ends(s: Slot, n: string) {
    (s.End? || s.Empty?) && s.name == n
  }

  predicate NoneCloses(t: seq<Slot>, n: string) {
    forall i :: 0 <= i < |t| ==> !Ends(t[i], n)
  }

  lemma {:induction false} ClosesNothing(t: seq<Slot>, v: Key -> string, n: string)
    requires NoneCloses(t, n)
    ensures NoneEnds(AllTokens(Fill(t, v)), n)
    decreases |t|
  {
    hide FillSlot, Tokens;
    if t != [] {
      var front, last := t[..|t| - 1], t[|t| - 1];
      TokensNext(t, v);
      ClosesNothing(front, v, n);
      SlotClosesNothing(last, v, n);
    }
  }

  lemma SlotClosesNothing(s: Slot, v: Key -> string, n: string)
    requires !Ends(s, n)
    ensures NoneEnds(Tokens(FillSlot(s, v)), n)
  {}

  lemma {:induction false} TokensConcat(a: seq<Slot>, b: seq<Slot>, v: Key -> string)
    ensures AllTokens(Fill(a + b, v)) == AllTokens(Fill(a, v)) + AllTokens(Fill(b, v))
    decreases |b|
  {
    hide FillSlot, Tokens;
    if b == [] {
      assert a + b == a;
    } else {
      assert (a + b)[..|a + b| - 1] == a + b[..|b| - 1];
      TokensNext(a + b, v);
      TokensNext(b, v);
      TokensConcat(a, b[..|b| - 1], v);
    }
  }

  lemma OneTag(s: Slot, v: Key -> string)
    ensures AllTokens(Fill([s], v)) == Tokens(FillSlot(s, v))
  {
    TokensNext([s], v);
    assert [s][..0] == [];
  }

  lemma LeafTokens(n: TagName, attrs: seq<(TagName, Part)>, p: Part, v: Key -> string)
    ensures AllTokens(Fill([Start(n, attrs), Inner(p), End(n)], v))
         == Tokens(FillSlot(Start(n, attrs), v)) + CharTokens(FillPart(p, v)) + [Token.Close(n)]
  {
    hide FillSlot, Tokens, Fill, AllTokens, CharTokens, FillPart;
    var start, text, end := Start(n, attrs), Inner(p), End(n);
    assert [start, text, end] == [start] + [text] + [end];
    TokensConcat([start] + [text], [end], v);
    TokensConcat([start], [text], v);
    OneTag(start, v);
    OneTag(text, v);
    OneTag(end, v);
    TextAndEnd(n, p, v);
  }

  lemma TextAndEnd(n: TagName, p: Part, v: Key -> string)
    ensures Tokens(FillSlot(Inner(p), v)) == CharTokens(FillPart(p, v))
    ensures Tokens(FillSlot(End(n), v)) == [Token.Close(n)]
  {}

  lemma StartsWithTag(n: TagName, attrs: seq<(TagName, Part)>, v: Key -> string)
    ensures var ts := Tokens(FillSlot(Start(n, attrs), v)); ts != [] && !ts[|ts| - 1].Char?
  {}

  lemma Regroup(a: seq<Token>, s: seq<Token>, c: seq<Token>, e: seq<Token>, b: seq<Token>)
    ensures a + (s + c + e) + b == (a + s) + c + e + b
  {}

  // One element of the template with a hole for its text.
  lemma LeafSlots(a: seq<Slot>, n: TagName, attrs: seq<(TagName, Part)>, p: Part, b: seq<Slot>, v: Key -> string)
    requires NoneCloses(a, n) && NoneCloses(b, n)
    ensures TextsNamed(AllTokens(Fill(a + [Start(n, attrs), Inner(p), End(n)] + b, v)), n) == [FillPart(p, v)]
  {
    hide TextsNamed, NoneCloses, FillSlot, Fill, Tokens, CharTokens, AllTokens, FillPart;
    var leaf, start := [Start(n, attrs), Inner(p), End(n)], Tokens(FillSlot(Start(n, attrs), v));
    TokensConcat(a + leaf, b, v);
    TokensConcat(a, leaf, v);
    LeafTokens(n, attrs, p, v);
    ClosesNothing(a, v, n);
    ClosesNothing(b, v, n);
    SlotClosesNothing(Start(n, attrs), v, n);
    StartsWithTag(n, attrs, v);
    var before, after, text := AllTokens(Fill(a, v)), AllTokens(Fill(b, v)), CharTokens(FillPart(p, v));
    LeafText(before + start, FillPart(p, v), after, n);
    Regroup(before, start, text, [Token.Close(n)], after);
  }

  const LEAVES := {"name", "uuid", "memory", "currentMemory", "vcpu"}

  type LeafName = n: string | n in LEAVES && NameOk(n) witness "name"

  // Where in the head of the template an element stands, and what fills it.
  function Place(n: LeafName): nat {
    if n == "name" then 2 else if n == "uuid" then 6 else if n == "memory" then 10
    else if n == "currentMemory" then 14 else 18
  }

  function Filler(n: LeafName): Key {
    if n == "name" then DomainName else if n == "uuid" then Id else if n == "vcpu" then Vcpus else Memory
  }

  lemma HeadHolds(n: LeafName)
    ensures var t, k := Identity(), Place(n);
            && |t| == 22 && t[k].Start? && t[k].name == n && t[k + 1] == Inner(Hole(Filler(n))) && t[k + 2] == End(n)
  {}

  // Its end tag stands nowhere else.
  lemma HeadClosesOnce(n: LeafName, i: nat)
    requires i < |Identity()| && Ends(Identity()[i], n)
    ensures i == Place(n) + 2
  {}

  lemma HeadClosesNone(n: LeafName)
    requires |Identity()| == 22
    ensures NoneCloses(Identity()[..Place(n)], n) && NoneCloses(Identity()[Place(n) + 3..], n)
  {
    hide Identity, Ends;
    var t, k := Identity(), Place(n);
    forall i | 0 <= i < k ensures !Ends(t[..k][i], n) {
      if Ends(t[i], n) {
        HeadClosesOnce(n, i);
      }
    }
    var rest := t[k + 3..];
    forall i | 0 <= i < |rest| ensures !Ends(rest[i], n) {
      if Ends(rest[i], n) {
        HeadClosesOnce(n, k + 3 + i);
      }
    }
  }

  lemma FirmwareClosesNone(n: LeafName)
    ensures NoneCloses(Firmware(), n) && NoneCloses(Features(), n)
  {}

  lemma ProcessorClosesNone(n: LeafName)
    ensures NoneCloses(Processor(), n) && NoneCloses(Lifecycle(), n)
  {}

  lemma DiskClosesNone(readOnly: bool, n: LeafName)
    ensures NoneCloses(DiskSource(), n) && NoneCloses(DiskBacking(), n) && NoneCloses(DiskTarget(readOnly), n)
  {}

  lemma NicTailClosesNone(n: LeafName)
    ensures NoneCloses(NicTail(), n)
  {}

  lemma NicClosesNone(network: Key, mac: Key, n: LeafName)
    ensures NoneCloses(NicBody(network, mac), n)
  {
    hide NicTail;
    NicTailClosesNone(n);
  }

  lemma InterfaceClosesNone(network: Key, mac: Key, n: LeafName)
    ensures NoneCloses(Interface(network, mac), n)
  {
    hide NicBody;
    NicClosesNone(network, mac, n);
  }

  lemma InterfacesCloseNone(role: VmRole, n: LeafName)
    ensures NoneCloses(Interfaces(role), n)
  {
    hide Interface, Ends;
    InterfaceClosesNone(Upstream, UpstreamMac, n);
    InterfaceClosesNone(Isolated, Mac, n);
  }

  lemma VideoClosesNone(gpu: GpuBackend, n: LeafName)
    ensures NoneCloses(Video(gpu), n)
  {}

  lemma ConsoleClosesNone(n: LeafName)
    ensures NoneCloses(Graphics(), n) && NoneCloses(Console(), n) && NoneCloses(Rng(), n)
            && NoneCloses(DomainXml.Closing(), n)
  {}

  function AfterHead(role: VmRole, gpu: GpuBackend, readOnly: bool): seq<Slot> {
    Firmware() + Features() + Processor() + Lifecycle() + DiskSource() + DiskBacking() + DiskTarget(readOnly)
      + Interfaces(role) + After(gpu)
  }

  lemma AfterHeadClosesNone(role: VmRole, gpu: GpuBackend, readOnly: bool, n: LeafName)
    ensures NoneCloses(AfterHead(role, gpu, readOnly), n)
  {
    hide Firmware, Features, Processor, Lifecycle, DiskSource, DiskBacking, DiskTarget, Interfaces, Video, Graphics,
         Console, Rng, DomainXml.Closing, Ends;
    FirmwareClosesNone(n);
    ProcessorClosesNone(n);
    DiskClosesNone(readOnly, n);
    InterfacesCloseNone(role, n);
    VideoClosesNone(gpu, n);
    ConsoleClosesNone(n);
  }

  lemma HeadAndRest(role: VmRole, gpu: GpuBackend, readOnly: bool)
    ensures Template(role, gpu, readOnly) == Identity() + AfterHead(role, gpu, readOnly)
  {
    hide Identity, Firmware, Features, Processor, Lifecycle, DiskSource, DiskBacking, DiskTarget, Interfaces, After;
  }

  lemma LeafOfTemplate(role: VmRole, gpu: GpuBackend, readOnly: bool, v: Key -> string, n: LeafName)
    ensures TextsNamed(AllTokens(Fill(Template(role, gpu, readOnly), v)), n) == [v(Filler(n))]
  {
    hide Identity, AfterHead, Template, TextsNamed, Ends;
    var t, rest, k := Identity(), AfterHead(role, gpu, readOnly), Place(n);
    HeadHolds(n);
    HeadClosesNone(n);
    AfterHeadClosesNone(role, gpu, readOnly, n);
    HeadAndRest(role, gpu, readOnly);
    var leaf := [Start(n, t[k].attrs), Inner(Hole(Filler(n))), End(n)];
    assert t == t[..k] + leaf + t[k + 3..];
    assert t + rest == t[..k] + leaf + (t[k + 3..] + rest);
    assert NoneCloses(t[k + 3..] + rest, n);
    LeafSlots(t[..k], n, t[k].attrs, Hole(Filler(n)), t[k + 3..] + rest, v);
  }

  // A UUID spelled with hyphens.
  predicate SpellsUuid(text: string, id: string) {
    && |text| == 36 && |id| == 32
    && text[8] == text[13] == text[18] == text[23] == '-'
    && text[..8] == id[..8] && text[9..13] == id[8..12] && text[14..18] == id[12..16] && text[19..23] == id[16..20]
    && text[24..] == id[20..]
  }

  predicate SpellsNumber(text: string, n: nat) {
    text != "" && (forall c | c in text :: IsDigit(c)) && Decimal.Value(text) == n
  }

  // A reader finds each of these elements once, and in it the domain's name, made of the
  // first digits of the instance id, the whole id, and the memory and processors asked for.
  lemma RequestIsReadAsText(req: Request, mac: string, upstreamMac: string)
    ensures var out := Read(START, RenderDomainXmlWith(req, mac, upstreamMac)).out;
            && TextsNamed(out, "name") == ["inst-" + req.id[..8]]
            && (exists text :: TextsNamed(out, "uuid") == [text] && SpellsUuid(text, req.id))
            && (exists text :: TextsNamed(out, "memory") == [text] && SpellsNumber(text, req.memoryMib))
            && (exists text :: TextsNamed(out, "currentMemory") == [text] && SpellsNumber(text, req.memoryMib))
            && (exists text :: TextsNamed(out, "vcpu") == [text] && SpellsNumber(text, req.vcpus))
  {
    hide Template, RenderDomainXmlWith, TextsNamed, Read, Fill, AllTokens, Show, Decimal.Value, SpellsUuid;
    DocumentReadsBack(req, mac, upstreamMac);
    var v := Values(req, mac, upstreamMac);
    LeafOfTemplate(req.role, req.gpu, req.readOnlyRoot, v, "name");
    LeafOfTemplate(req.role, req.gpu, req.readOnlyRoot, v, "uuid");
    LeafOfTemplate(req.role, req.gpu, req.readOnlyRoot, v, "memory");
    LeafOfTemplate(req.role, req.gpu, req.readOnlyRoot, v, "currentMemory");
    LeafOfTemplate(req.role, req.gpu, req.readOnlyRoot, v, "vcpu");
    HyphensSpell(req);
    ValueOfShow(req.memoryMib);
    ValueOfShow(req.vcpus);
  }

  lemma HyphensSpell(req: Request)
    ensures SpellsUuid(req.Hyphenated(), req.id)
  {
    var t := req.Hyphenated();
    assert t[..8] == req.id[..8] && t[9..13] == req.id[8..12];
    assert t[14..18] == req.id[12..16] && t[19..23] == req.id[16..20] && t[24..] == req.id[20..];
  }

  // ---- what keeps the machine closed --------------------------------------------------------------

  const LOCKS := {"listen", "accel3d"}

  type LockName = n: string | n in LOCKS witness "listen"

  lemma HeadHasNoLock(n: LockName)
    ensures NoneHas(Identity(), n) && NoneHas(Features(), n) && NoneHas(Processor(), n)
  {}

  lemma FirmwareHasNoLock(n: LockName)
    ensures NoneHas(Firmware(), n) && NoneHas(Lifecycle(), n)
  {}

  lemma DiskHasNoLock(readOnly: bool, n: LockName)
    ensures NoneHas(DiskSource(), n) && NoneHas(DiskBacking(), n) && NoneHas(DiskTarget(readOnly), n)
  {}

  lemma InterfacesHaveNoLock(role: VmRole, n: LockName)
    ensures NoneHas(Interfaces(role), n)
  {}

  lemma ConsoleHasNoLock(n: LockName)
    ensures NoneHas(Console(), n) && NoneHas(Rng(), n) && NoneHas(DomainXml.Closing(), n)
  {}

  lemma UpToVideoHasNoLock(role: VmRole, readOnly: bool, n: LockName)
    ensures NoneHas(Before(readOnly) + Interfaces(role), n)
  {
    hide Identity, Firmware, Features, Processor, Lifecycle, DiskSource, DiskBacking, DiskTarget, Interfaces, HasAttr;
    HeadHasNoLock(n);
    FirmwareHasNoLock(n);
    DiskHasNoLock(readOnly, n);
    InterfacesHaveNoLock(role, n);
  }

  lemma VideoParts(gpu: GpuBackend, n: LockName)
    ensures PartsNamed(Video(gpu), n) == if gpu == VirtioGpu && n == "accel3d" then [Lit("no")] else []
  {
    hide PartsNamed;
    var t := Video(gpu);
    if gpu == VirtioGpu {
      assert t == t[..5] + [t[5]] + t[6..];
      OneHole(t[..5], t[5], t[6..], "accel3d", Lit("no"), n);
    } else {
      NoneHasParts(t, n);
    }
  }

  lemma GraphicsParts(n: LockName)
    ensures PartsNamed(Graphics(), n) == if n == "listen" then [Lit("127.0.0.1")] else []
  {
    var t := Graphics();
    OneSlot(t[0], n);
    OneSlot(t[1], n);
    OneSlot(t[2], n);
    PartsConcat([t[0]], [t[1]], n);
    PartsConcat([t[0]] + [t[1]], [t[2]], n);
    assert t == [t[0]] + [t[1]] + [t[2]];
    ListenParts(n);
  }

  lemma ListenParts(n: LockName)
    ensures SlotParts(Graphics()[1], n) == if n == "listen" then [Lit("127.0.0.1")] else []
  {
    var attrs := Graphics()[1].attrs;
    assert attrs[..3][..2] == attrs[..2] && attrs[..2][..1] == attrs[..1];
    assert AttrParts(attrs[..1], n) == [] && AttrParts(attrs[..2], n) == [] && AttrParts(attrs[..3], n) == [];
  }

  lemma LockParts(role: VmRole, gpu: GpuBackend, readOnly: bool, n: LockName)
    ensures PartsNamed(Template(role, gpu, readOnly), n) == PartsNamed(Video(gpu), n) + PartsNamed(Graphics(), n)
  {
    hide Before, Interfaces, Video, Graphics, Console, Rng, DomainXml.Closing, PartsNamed, HasAttr;
    var head := Before(readOnly) + Interfaces(role);
    UpToVideoHasNoLock(role, readOnly, n);
    ConsoleHasNoLock(n);
    NoneHasParts(head, n);
    NoneHasParts(Console(), n);
    NoneHasParts(Rng(), n);
    NoneHasParts(DomainXml.Closing(), n);
    PartsConcat(head, After(gpu), n);
    PartsConcat(Video(gpu), Graphics(), n);
    PartsConcat(Video(gpu) + Graphics(), Console(), n);
    PartsConcat(Video(gpu) + Graphics() + Console(), Rng(), n);
    PartsConcat(Video(gpu) + Graphics() + Console() + Rng(), DomainXml.Closing(), n);
  }

  // ---- the types -----------------------------------------------------------------------------------

  const TYPE: TagName := "type"

  function TypesBefore(): seq<Part> {
    [Lit("kvm"), Lit("file"), Lit("qcow2"), Lit("file"), Lit("qcow2")]
  }

  function TypesOfNic(): seq<Part> {
    [Lit("network"), Lit("virtio")]
  }

  function TypesAfter(gpu: GpuBackend): seq<Part> {
    [Lit(if gpu == VirtioGpu then "virtio" else "vga"), Lit("vnc"), Lit("pty"), Lit("serial")]
  }

  function TypesOf(role: VmRole, gpu: GpuBackend): seq<Part> {
    TypesBefore() + (if role == GatewayVm then TypesOfNic() else []) + TypesOfNic() + TypesAfter(gpu)
  }

  lemma {:induction false} OneOfAttrs(attrs: seq<(TagName, Part)>, j: nat)
    requires j < |attrs| && attrs[j].0 == TYPE && forall i :: 0 <= i < |attrs| && i != j ==> attrs[i].0 != TYPE
    ensures AttrParts(attrs, TYPE) == [attrs[j].1]
    decreases |attrs|
  {
    var front := attrs[..|attrs| - 1];
    if j == |front| {
      NoAttrParts(front, TYPE);
    } else {
      OneOfAttrs(front, j);
    }
  }

  // One slot of a part of the template has a type.
  lemma OneTyped(t: seq<Slot>, k: nat, j: nat)
    requires k < |t| && (t[k].Start? || t[k].Empty?) && j < |t[k].attrs| && t[k].attrs[j].0 == TYPE
    requires forall i :: 0 <= i < |t[k].attrs| && i != j ==> t[k].attrs[i].0 != TYPE
    requires forall i :: 0 <= i < |t| && i != k ==> !HasAttr(t[i], TYPE)
    ensures PartsNamed(t, TYPE) == [t[k].attrs[j].1]
  {
    hide HasAttr, PartsNamed;
    assert t == t[..k] + [t[k]] + t[k + 1..];
    NoneHasParts(t[..k], TYPE);
    NoneHasParts(t[k + 1..], TYPE);
    OneSlot(t[k], TYPE);
    OneOfAttrs(t[k].attrs, j);
    PartsConcat(t[..k], [t[k]], TYPE);
    PartsConcat(t[..k] + [t[k]], t[k + 1..], TYPE);
  }

  lemma IdentityTypes()
    ensures PartsNamed(Identity(), TYPE) == [Lit("kvm")]
  {
    OneTyped(Identity(), 0, 0);
  }

  lemma FirmwareTypes()
    ensures PartsNamed(Firmware(), TYPE) == [] && PartsNamed(Features(), TYPE) == []
  {
    NoneHasParts(Firmware(), TYPE);
    NoneHasParts(Features(), TYPE);
  }

  lemma ProcessorTypes()
    ensures PartsNamed(Processor(), TYPE) == [] && PartsNamed(Lifecycle(), TYPE) == []
  {
    NoneHasParts(Processor(), TYPE);
    NoneHasParts(Lifecycle(), TYPE);
  }

  lemma SourceTypes()
    ensures PartsNamed(DiskSource(), TYPE) == [Lit("file"), Lit("qcow2")]
  {
    hide PartsNamed;
    var t := DiskSource();
    OneTyped(t[..2], 1, 0);
    OneTyped(t[2..], 1, 1);
    PartsConcat(t[..2], t[2..], TYPE);
    assert t == t[..2] + t[2..];
  }

  lemma BackingTypes()
    ensures PartsNamed(DiskBacking(), TYPE) == [Lit("file"), Lit("qcow2")]
  {
    hide PartsNamed;
    var t := DiskBacking();
    OneTyped(t[..1], 0, 0);
    OneTyped(t[1..], 1, 0);
    PartsConcat(t[..1], t[1..], TYPE);
    assert t == t[..1] + t[1..];
  }

  lemma TargetTypes(readOnly: bool)
    ensures PartsNamed(DiskTarget(readOnly), TYPE) == []
  {
    NoneHasParts(DiskTarget(readOnly), TYPE);
  }

  lemma NicTailTypes()
    ensures PartsNamed(NicTail(), TYPE) == [Lit("virtio")]
  {
    OneTyped(NicTail(), 1, 0);
  }

  function NicHead(network: Key, mac: Key): seq<Slot> {
    [Gap("\n      "), Empty("mac", [("address", Hole(mac))]), Gap("\n      "),
     Empty("source", [("network", Hole(network))])]
  }

  lemma NicHeadTypes(network: Key, mac: Key)
    ensures PartsNamed(NicHead(network, mac), TYPE) == []
  {
    NoneHasParts(NicHead(network, mac), TYPE);
  }

  lemma NicBodyTypes(network: Key, mac: Key)
    ensures PartsNamed(NicBody(network, mac), TYPE) == [Lit("virtio")]
  {
    hide PartsNamed, NicTail;
    NicTailTypes();
    NicHeadTypes(network, mac);
    PartsConcat(NicHead(network, mac), NicTail(), TYPE);
    assert NicBody(network, mac) == NicHead(network, mac) + NicTail();
  }

  lemma InterfaceTypes(network: Key, mac: Key)
    ensures PartsNamed(Interface(network, mac), TYPE) == TypesOfNic()
  {
    hide PartsNamed, NicBody;
    var head := [Gap("    ")] + [Start(NIC, [(TYPE, Lit("network"))])];
    OneTyped(head, 1, 0);
    NicBodyTypes(network, mac);
    PartsConcat(head, NicBody(network, mac), TYPE);
  }

  lemma VideoTypes(gpu: GpuBackend)
    ensures PartsNamed(Video(gpu), TYPE) == [Lit(if gpu == VirtioGpu then "virtio" else "vga")]
  {
    OneTyped(Video(gpu), 3, 0);
  }

  lemma GraphicsTypes()
    ensures PartsNamed(Graphics(), TYPE) == [Lit("vnc")]
  {
    OneTyped(Graphics(), 1, 0);
  }

  lemma ConsoleTypes()
    ensures PartsNamed(Console(), TYPE) == [Lit("pty"), Lit("serial")]
  {
    hide PartsNamed;
    var t := Console();
    OneTyped(t[..1], 0, 0);
    OneTyped(t[1..], 1, 0);
    PartsConcat(t[..1], t[1..], TYPE);
    assert t == t[..1] + t[1..];
  }

  lemma ClosingTypes()
    ensures PartsNamed(Rng(), TYPE) == [] && PartsNamed(DomainXml.Closing(), TYPE) == []
  {
    NoneHasParts(Rng(), TYPE);
    NoneHasParts(DomainXml.Closing(), TYPE);
  }

  lemma BeforeTypes(readOnly: bool)
    ensures PartsNamed(Before(readOnly), TYPE) == TypesBefore()
  {
    hide Identity, Firmware, Features, Processor, Lifecycle, DiskSource, DiskBacking, DiskTarget, PartsNamed;
    IdentityTypes();
    FirmwareTypes();
    ProcessorTypes();
    SourceTypes();
    BackingTypes();
    TargetTypes(readOnly);
    PartsConcat(Identity(), Firmware(), TYPE);
    PartsConcat(Identity() + Firmware(), Features(), TYPE);
    PartsConcat(Identity() + Firmware() + Features(), Processor(), TYPE);
    PartsConcat(Identity() + Firmware() + Features() + Processor(), Lifecycle(), TYPE);
    PartsConcat(Identity() + Firmware() + Features() + Processor() + Lifecycle(), DiskSource(), TYPE);
    PartsConcat(UpToTarget()[..|UpToTarget()| - |DiskBacking()|], DiskBacking(), TYPE);
    assert UpToTarget()[..|UpToTarget()| - |DiskBacking()|]
        == Identity() + Firmware() + Features() + Processor() + Lifecycle() + DiskSource();
    PartsConcat(UpToTarget(), DiskTarget(readOnly), TYPE);
    BeforeTarget(readOnly);
  }

  lemma AfterTypes(gpu: GpuBackend)
    ensures PartsNamed(After(gpu), TYPE) == TypesAfter(gpu)
  {
    hide Video, Graphics, Console, Rng, DomainXml.Closing, PartsNamed;
    VideoTypes(gpu);
    GraphicsTypes();
    ConsoleTypes();
    ClosingTypes();
    PartsConcat(Video(gpu), Graphics(), TYPE);
    PartsConcat(Video(gpu) + Graphics(), Console(), TYPE);
    PartsConcat(Video(gpu) + Graphics() + Console(), Rng(), TYPE);
    PartsConcat(Video(gpu) + Graphics() + Console() + Rng(), DomainXml.Closing(), TYPE);
  }

  lemma TemplateTypes(role: VmRole, gpu: GpuBackend, readOnly: bool)
    ensures PartsNamed(Template(role, gpu, readOnly), TYPE) == TypesOf(role, gpu)
  {
    hide Before, After, Interface, PartsNamed, TypesBefore, TypesOfNic, TypesAfter;
    BeforeTypes(readOnly);
    AfterTypes(gpu);
    InterfaceTypes(Isolated, Mac);
    InterfaceTypes(Upstream, UpstreamMac);
    PartsConcat(Interface(Upstream, UpstreamMac), Interface(Isolated, Mac), TYPE);
    PartsConcat(Before(readOnly) + Interfaces(role), After(gpu), TYPE);
    PartsConcat(Before(readOnly), Interfaces(role), TYPE);
  }

  // The elements of which there is one.
  const SINGLES := {"graphics", "readonly"}

  type SingleName = n: string | n in SINGLES witness "graphics"

  lemma HeadHasNoSingle(n: SingleName)
    ensures NoneOpens(Identity(), n) && NoneOpens(Features(), n) && NoneOpens(Processor(), n)
  {}

  lemma FirmwareHasNoSingle(n: SingleName)
    ensures NoneOpens(Firmware(), n) && NoneOpens(Lifecycle(), n)
  {}

  lemma DiskHasNoSingle(n: SingleName)
    ensures NoneOpens(DiskSource(), n) && NoneOpens(DiskBacking(), n)
  {}

  lemma InterfacesHaveNoSingle(role: VmRole, n: SingleName)
    ensures NoneOpens(Interfaces(role), n)
  {}

  lemma VideoHasNoSingle(gpu: GpuBackend, n: SingleName)
    ensures NoneOpens(Video(gpu), n)
  {}

  lemma ConsoleHasNoSingle(n: SingleName)
    ensures NoneOpens(Console(), n) && NoneOpens(Rng(), n) && NoneOpens(DomainXml.Closing(), n)
  {}

  lemma TargetCount(readOnly: bool, n: SingleName)
    ensures CountSlots(DiskTarget(readOnly), n) == if readOnly && n == "readonly" then 1 else 0
  {
    var t := DiskTarget(readOnly);
    if readOnly {
      assert t == t[..3] + [t[3]] + t[4..];
      NoneMeansZero(t[..3], n);
      CountOne(t[3], n);
      NoneMeansZero(t[4..], n);
      CountConcat(t[..3], [t[3]], n);
      CountConcat(t[..3] + [t[3]], t[4..], n);
    } else {
      NoneMeansZero(t, n);
    }
  }

  lemma GraphicsCount(n: SingleName)
    ensures CountSlots(Graphics(), n) == if n == "graphics" then 1 else 0
  {
    var t := Graphics();
    assert t == [t[0]] + [t[1]] + [t[2]];
    CountOne(t[0], n);
    CountOne(t[1], n);
    CountOne(t[2], n);
    CountConcat([t[0]], [t[1]], n);
    CountConcat([t[0]] + [t[1]], [t[2]], n);
  }

  function UpToTarget(): seq<Slot> {
    Identity() + Firmware() + Features() + Processor() + Lifecycle() + DiskSource() + DiskBacking()
  }

  lemma UpToTargetHasNoSingle(n: SingleName)
    ensures NoneOpens(UpToTarget(), n)
  {
    hide Identity, Firmware, Features, Processor, Lifecycle, DiskSource, DiskBacking, Opens;
    HeadHasNoSingle(n);
    FirmwareHasNoSingle(n);
    DiskHasNoSingle(n);
  }

  lemma SingleCount(role: VmRole, gpu: GpuBackend, readOnly: bool, n: SingleName)
    ensures CountSlots(Template(role, gpu, readOnly), n) == if n == "graphics" || readOnly then 1 else 0
  {
    hide UpToTarget, DiskTarget, Interfaces, Video, Graphics, Console, Rng, DomainXml.Closing, CountSlots, Opens;
    UpToTargetHasNoSingle(n);
    InterfacesHaveNoSingle(role, n);
    VideoHasNoSingle(gpu, n);
    ConsoleHasNoSingle(n);
    NoneMeansZero(UpToTarget(), n);
    NoneMeansZero(Interfaces(role), n);
    NoneMeansZero(Video(gpu), n);
    NoneMeansZero(Console() + Rng() + DomainXml.Closing(), n);
    TargetCount(readOnly, n);
    GraphicsCount(n);
    var end := Console() + Rng() + DomainXml.Closing();
    CountConcat(UpToTarget(), DiskTarget(readOnly), n);
    CountConcat(UpToTarget() + DiskTarget(readOnly), Interfaces(role), n);
    CountConcat(UpToTarget() + DiskTarget(readOnly) + Interfaces(role), After(gpu), n);
    CountConcat(Video(gpu), Graphics(), n);
    CountConcat(Video(gpu) + Graphics(), end, n);
    assert After(gpu) == Video(gpu) + Graphics() + end;
    BeforeTarget(readOnly);
  }

  lemma BeforeTarget(readOnly: bool)
    ensures Before(readOnly) == UpToTarget() + DiskTarget(readOnly)
  {}

  // The machine has one display, which listens on the loopback address only, no 3D
  // acceleration, and a read-only root disk exactly if one is asked for; its interfaces are
  // all on virtual networks, and its disks are image files.
  lemma MachineIsClosed(req: Request, mac: string, upstreamMac: string)
    ensures var out := Read(START, RenderDomainXmlWith(req, mac, upstreamMac)).out;
            && CountOpens(out, "graphics") == 1 && ValuesNamed(out, "listen") == ["127.0.0.1"]
            && ValuesNamed(out, "accel3d") == (if req.gpu == VirtioGpu then ["no"] else [])
            && CountOpens(out, "readonly") == (if req.readOnlyRoot then 1 else 0)
            && ValuesNamed(out, "type")
               == ["kvm", "file", "qcow2", "file", "qcow2"]
                  + (if req.role == GatewayVm then ["network", "virtio"] else [])
                  + ["network", "virtio", if req.gpu == VirtioGpu then "virtio" else "vga", "vnc", "pty", "serial"]
  {
    hide Template, RenderDomainXmlWith, ValuesNamed, PartsNamed, Unescape, Values, Read, Fill, AllTokens, CountOpens;
    var t, v := Template(req.role, req.gpu, req.readOnlyRoot), Values(req, mac, upstreamMac);
    DocumentReadsBack(req, mac, upstreamMac);
    TemplateOpens(t, v, "graphics");
    TemplateOpens(t, v, "readonly");
    SingleCount(req.role, req.gpu, req.readOnlyRoot, "graphics");
    SingleCount(req.role, req.gpu, req.readOnlyRoot, "readonly");
    TemplateMeans(t, v, "listen");
    TemplateMeans(t, v, "accel3d");
    LockParts(req.role, req.gpu, req.readOnlyRoot, "listen");
    LockParts(req.role, req.gpu, req.readOnlyRoot, "accel3d");
    VideoParts(req.gpu, "listen");
    VideoParts(req.gpu, "accel3d");
    GraphicsParts("listen");
    GraphicsParts("accel3d");
    LiteralsMean(v);
    TemplateMeans(t, v, "type");
    TemplateTypes(req.role, req.gpu, req.readOnlyRoot);
    TypesMean(req.role, req.gpu, v);
  }

  lemma TypesMean(role: VmRole, gpu: GpuBackend, v: Key -> string)
    ensures Meant(TypesOf(role, gpu), v)
         == ["kvm", "file", "qcow2", "file", "qcow2"] + (if role == GatewayVm then ["network", "virtio"] else [])
            + ["network", "virtio", if gpu == VirtioGpu then "virtio" else "vga", "vnc", "pty", "serial"]
  {
    hide Unescape;
    NothingToUnescape("kvm");
    NothingToUnescape("file");
    NothingToUnescape("qcow2");
    NothingToUnescape("network");
    NothingToUnescape("virtio");
    NothingToUnescape("vga");
    NothingToUnescape("vnc");
    NothingToUnescape("pty");
    NothingToUnescape("serial");
  }

  lemma LiteralsMean(v: Key -> string)
    ensures Meant([Lit("127.0.0.1")], v) == ["127.0.0.1"] && Meant([Lit("no")], v) == ["no"] && Meant([], v) == []
  {
    NothingToUnescape("127.0.0.1");
    NothingToUnescape("no");
  }

  lemma {:induction false} NothingToUnescape(s: string)
    requires '&' !in s
    ensures Unescape(s) == s
    decreases |s|
  {
    if s != "" {
      assert s[0] != '&' && Entity(s).None?;
      NothingToUnescape(s[1..]);
    }
  }
}
