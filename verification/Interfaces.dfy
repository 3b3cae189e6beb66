/** Switch ports and routed VLAN interfaces, one at a time (crates/switch-model/src/lib.rs). */
module Interfaces {
  import opened Basics
  import opened Model
  import opened VlanRanges
  import opened Config
  import opened Validator

  predicate Active(dom: Domain, v: Vid) { v in dom.vlans && dom.vlans[v].active }

  function Declared(dom: Domain, id: nat): Result<Vid, Problem> {
    if !ValidVid(id) then Err(Problem.OutOfRange(id)) else if id in dom.vlans then Ok(id) else Err(NotDeclared(id))
  }

  // ----- the VLANs of an 802.1Q port -----

  /** An id, which has to be declared, or a range standing for the declared VLANs in it. */
  function TrunkEntry(e: Scalar, dom: Domain): (r: Result<set<Vid>, Problem>)
    ensures r.Ok? ==> r.value <= dom.vlans.Keys
  {
    match AsU64(e)
    case Some(id) => (match Declared(dom, id) case Ok(v) => Ok({v}) case Err(p) => Err(p))
    case None =>
      match VlanEntry(e)
      case Ok(r) => Ok(set v | v in dom.vlans && r.low <= v <= r.high)
      case Err(_) => Err(BadTrunk)
  }

  predicate IsAccess(c: SwitchedVlan) { c.mode in {None, Some("ACCESS")} }

  type Reader = Scalar -> Result<set<Vid>, Problem>

  function Trunk(dom: Domain): Reader { e => TrunkEntry(e, dom) }

  predicate TrunkOk(es: seq<Scalar>, read: Reader) { forall i :: 0 <= i < |es| ==> read(es[i]).Ok? }

  predicate SwitchedOk(c: SwitchedVlan, dom: Domain) {
    if IsAccess(c) then c.native.None? && c.trunk == [] && c.access.Some? && Declared(dom, c.access.value).Ok?
    else
      && c.mode == Some("TRUNK") && c.access.None? && TrunkOk(c.trunk, Trunk(dom))
      && (c.native.Some? ==> Declared(dom, c.native.value).Ok?)
  }

  function IfActive(dom: Domain, v: Option<Vid>): Option<Vid> { if v.Some? && Active(dom, v.value) then v else None }

  function VlansIn(r: Result<set<Vid>, Problem>): set<Vid> { match r case Ok(vs) => vs case Err(_) => {} }

  ghost predicate Listed(es: seq<Scalar>, read: Reader, v: Vid) { exists e :: e in es && v in VlansIn(read(e)) }

  /** The trunk lists `v`; an empty list allows every VLAN. */
  ghost predicate InTrunk(es: seq<Scalar>, read: Reader, v: Vid) { es == [] || Listed(es, read, v) }

  ghost predicate IsTagged(c: SwitchedVlan, dom: Domain, v: Vid)
    requires SwitchedOk(c, dom)
  {
    !IsAccess(c) && Active(dom, v) && c.native != Some(v) && InTrunk(c.trunk, Trunk(dom), v)
  }

  lemma ListedStep(es: seq<Scalar>, e: Scalar, read: Reader, v: Vid)
    ensures Listed(es + [e], read, v) <==> Listed(es, read, v) || v in VlansIn(read(e))
  {
    if Listed(es, read, v) {
      var x :| x in es && v in VlansIn(read(x));
      assert x in es + [e];
    }
    if v in VlansIn(read(e)) { assert e in es + [e]; }
  }

  method TrunkVlans(es: seq<Scalar>, read: Reader, every: set<Vid>) returns (tagged: set<Vid>, errors: seq<Problem>)
    requires forall e :: VlansIn(read(e)) <= every
    ensures errors == [] <==> TrunkOk(es, read)
    ensures forall v :: v in tagged <==> v in every && InTrunk(es, read, v)
  {
    tagged, errors := {}, [];
    for i := 0 to |es|
      invariant errors == [] <==> TrunkOk(es[..i], read)
      invariant forall v :: v in tagged <==> Listed(es[..i], read, v)
    {
      assert es[..i + 1] == es[..i] + [es[i]];
      forall v ensures Listed(es[..i + 1], read, v) <==> Listed(es[..i], read, v) || v in VlansIn(read(es[i]))
      {
        ListedStep(es[..i], es[i], read, v);
      }
      match read(es[i]) {
        case Ok(vs) => tagged := tagged + vs;
        case Err(p) => errors := errors + [p];
      }
    }
    assert es[..|es|] == es;
    if es == [] { tagged := every; }
  }

  /** `switched_vlans`: the native VLAN and the tagged ones, without suspended VLANs. */
  method SwitchedVlans(c: SwitchedVlan, dom: Domain)
    returns (native: Option<Vid>, tagged: set<Vid>, errors: seq<Problem>)
    ensures errors == [] <==> SwitchedOk(c, dom)
    ensures errors == [] ==> native == IfActive(dom, if IsAccess(c) then c.access else c.native)
    ensures errors == [] ==> forall v :: v in tagged <==> IsTagged(c, dom, v)
  {
    native, tagged, errors := None, {}, [];
    if IsAccess(c) {
      if c.access.Some? {
        match Declared(dom, c.access.value) {
          case Ok(v) => native := IfActive(dom, Some(v));
          case Err(p) => errors := errors + [p];
        }
      }
      if c.native.Some? || c.trunk != [] { errors := errors + [TrunkLeaves]; }
      if c.access.None? { errors := errors + [NoAccessVlan]; }
    } else if c.mode == Some("TRUNK") {
      var problems := [];
      if c.native.Some? {
        match Declared(dom, c.native.value) {
          case Ok(v) => native := Some(v);
          case Err(p) => problems := problems + [p];
        }
      }
      if c.access.Some? { problems := problems + [AccessLeaf]; }
      var all, bad := TrunkVlans(c.trunk, Trunk(dom), dom.vlans.Keys);
      tagged := set v | v in all && native != Some(v) && Active(dom, v);
      native := IfActive(dom, native);
      errors := problems + bad;
    } else {
      errors := [UnknownInterfaceMode];
    }
  }

  // ----- a switch port -----

  predicate PortOk(i: Interface, ports: set<Name>, dom: Domain) {
    && i.name in ports && i.routed.None?
    && (if dom.mode == Dot1q then i.switched.Some? && SwitchedOk(i.switched.value, dom)
        else i.switched.None? && i.name in dom.groupOf)
  }

  /** What an acceptable port asks for. */
  ghost function PortOf(i: Interface, ports: set<Name>, dom: Domain): Port
    requires PortOk(i, ports, dom)
  {
    var enabled := OrElse(i.enabled, true);
    if dom.mode == PortBased then Port(enabled, Some(dom.groupOf[i.name]), {}) else
      var c := i.switched.value;
      Port(enabled, IfActive(dom, if IsAccess(c) then c.access else c.native),
           set v | v in dom.vlans && IsTagged(c, dom, v))
  }

  method ValidatePort(i: Interface, ports: set<Name>, dom: Domain) returns (r: Result<Port, seq<Problem>>)
    ensures r.Ok? <==> PortOk(i, ports, dom)
    ensures r.Ok? ==> r.value == PortOf(i, ports, dom)
    ensures r.Err? ==> r.error != []
  {
    var errors := [];
    if i.name !in ports { errors := errors + [NotASwitchPort]; }
    if i.routed.Some? { errors := errors + [RoutedOnPort]; }
    var native, tagged := None, {};
    if dom.mode == Dot1q {
      if i.switched.None? {
        errors := errors + [NoSwitchedVlan];
      } else {
        var problems;
        native, tagged, problems := SwitchedVlans(i.switched.value, dom);
        errors := errors + problems;
      }
    } else {
      if i.switched.Some? { errors := errors + [SwitchedNeedsDot1q]; }
      if i.name in dom.groupOf { native := Some(dom.groupOf[i.name]); } else { errors := errors + [InNoGroup]; }
    }
    if errors == [] { return Ok(Port(OrElse(i.enabled, true), native, tagged)); }
    return Err(errors);
  }

  // ----- a routed VLAN interface -----

  const MAX_IFNAME_LEN := 15

  /** Bytes in UTF-8. */
  function ByteLength(s: string): nat {
    if s == [] then 0 else
      (var c := s[0] as int; if c < 0x80 then 1 else if c < 0x800 then 2 else if c < 0x10000 then 3 else 4) +
          ByteLength(s[1..])
  }

  predicate IfnameOk(s: string) {
    && s != [] && ByteLength(s) <= MAX_IFNAME_LEN && s != "." && s != ".."
    && forall i :: 0 <= i < |s| ==> s[i] != '/' && s[i] != ':' && !IsSpace(s[i])
  }

  function Named(dom: Domain, s: string): set<Vid> { set v | v in dom.vlans && dom.vlans[v].name == Some(s) }

  /** The VLAN of an SVI, by id or by a name that only one VLAN has. */
  function SviVlan(v: Option<Scalar>, dom: Domain): (r: Result<Vid, Problem>)
    requires forall v :: v in dom.vlans ==> ValidVid(v)
    ensures r.Ok? ==> r.value in dom.vlans
    ensures v.Some? && AsU64(v.value).None? && v.value.Text? ==>
              if r.Ok? then Named(dom, v.value.s) == {r.value} else forall id :: Named(dom, v.value.s) != {id}
  {
    if v.None? then Err(NoRoutedVlan)
    else if AsU64(v.value).Some? then Declared(dom, AsU64(v.value).value)
    else if v.value.Text? then
      var ids := Numbers(Named(dom, v.value.s));
      assert |ids| == 1 ==> ids[0] in ids && Named(dom, v.value.s) == {ids[0]};
      assert ids == [] ==> Named(dom, v.value.s) == {};
      assert |ids| > 1 ==> ids[0] in Named(dom, v.value.s) && ids[1] in Named(dom, v.value.s) && ids[0] != ids[1];
      if |ids| == 1 then Ok(ids[0]) else if ids == [] then Err(NoSuchName) else Err(AmbiguousName)
    else Err(NoSuchName)
  }

  predicate AddressOk(a: Address) { a.ip.Some? && a.prefixLength.Some? && a.prefixLength.value <= 32 }

  predicate SviOk(i: Interface, ports: set<Name>, dom: Domain)
    requires forall v :: v in dom.vlans ==> ValidVid(v)
  {
    && IfnameOk(i.name.text) && i.name != BR && i.name !in ports && i.switched.None? && i.routed.Some?
    && SviVlan(i.routed.value.vlan, dom).Ok?
    && AddressesOk(i.routed.value.addresses)
  }

  /** What an acceptable SVI asks for. */
  ghost function SviOf(i: Interface, ports: set<Name>, dom: Domain): Svi
    requires (forall v :: v in dom.vlans ==> ValidVid(v)) && SviOk(i, ports, dom)
  {
    var r := i.routed.value;
    Svi(OrElse(i.enabled, true), SviVlan(r.vlan, dom).value, AddressSet(r.addresses), OrElse(r.dhcpClient, false))
  }

  predicate AddressesOk(xs: seq<Address>) { forall k :: 0 <= k < |xs| ==> AddressOk(xs[k]) }

  ghost function AddressSet(xs: seq<Address>): set<Prefix>
    requires AddressesOk(xs)
  {
    set k | 0 <= k < |xs| :: Prefix(xs[k].ip.value, xs[k].prefixLength.value)
  }

  method SviAddresses(xs: seq<Address>) returns (addresses: set<Prefix>, errors: seq<Problem>)
    ensures errors == [] <==> AddressesOk(xs)
    ensures errors == [] ==> addresses == AddressSet(xs)
  {
    addresses, errors := {}, [];
    for i := 0 to |xs|
      invariant errors == [] <==> AddressesOk(xs[..i])
      invariant errors == [] ==> addresses == AddressSet(xs[..i])
    {
      assert xs[..i + 1] == xs[..i] + [xs[i]];
      if xs[i].ip.None? {
        errors := errors + [BadAddress];
      } else if xs[i].prefixLength.Some? && xs[i].prefixLength.value <= 32 {
        addresses := addresses + {Prefix(xs[i].ip.value, xs[i].prefixLength.value)};
      } else {
        errors := errors + [BadPrefix];
      }
      if errors == [] { AddressStep(xs[..i], xs[i]); }
    }
    assert xs[..|xs|] == xs;
  }

  lemma AddressStep(xs: seq<Address>, x: Address)
    requires AddressesOk(xs) && AddressOk(x)
    ensures AddressesOk(xs + [x]) && AddressSet(xs + [x]) == AddressSet(xs) + {Prefix(x.ip.value, x.prefixLength.value)}
  {
    var all := xs + [x];
    assert all[|xs|] == x;
    forall p | p in AddressSet(xs) ensures p in AddressSet(all) {
      var k :| 0 <= k < |xs| && p == Prefix(xs[k].ip.value, xs[k].prefixLength.value);
      assert all[k] == xs[k];
    }
  }

  method ValidateSvi(i: Interface, ports: set<Name>, dom: Domain) returns (r: Result<Svi, seq<Problem>>)
    requires forall v :: v in dom.vlans ==> ValidVid(v)
    ensures r.Ok? <==> SviOk(i, ports, dom)
    ensures r.Ok? ==> r.value == SviOf(i, ports, dom)
    ensures r.Err? ==> r.error != []
  {
    var errors := [];
    if !IfnameOk(i.name.text) { errors := errors + [BadName]; }
    if i.name == BR || i.name in ports { errors := errors + [ReservedName]; }
    if i.switched.Some? { errors := errors + [SwitchedOnSvi]; }
    if i.routed.None? { return Err(errors + [NoRoutedVlan]); }
    var routed := i.routed.value;
    var vlan := SviVlan(routed.vlan, dom);
    if vlan.Err? { errors := errors + [vlan.error]; }
    var addresses, problems := SviAddresses(routed.addresses);
    errors := errors + problems;
    if errors == [] && vlan.Ok? {
      return Ok(Svi(OrElse(i.enabled, true), vlan.value, addresses, OrElse(routed.dhcpClient, false)));
    }
    return Err(errors);
  }

  /** A range written out stands for the declared VLANs from its first to its last id. */
  lemma TrunkReads(dom: Domain, low: Vid, high: Vid)
    requires ValidVid(low) && ValidVid(high) && low < high
    ensures TrunkEntry(Text(ToText(low) + ".." + ToText(high)), dom) == Ok(set v | v in dom.vlans && low <= v <= high)
    ensures TrunkEntry(Text(ToText(low)), dom) == (if low in dom.vlans then Ok({low}) else Err(NotDeclared(low)))
  {
    EntryOfText(Range(low, high));
    ParseToText(low);
    NoNumber(ToText(low), ToText(high));
  }

  lemma NoNumber(a: string, b: string)
    ensures ParseU64(a + ".." + b).None?
  {
    var t := a + ".." + b;
    assert t[|a|] == '.' && t[|a| + 1] == '.';
    var u := if t != [] && t[0] == '+' then t[1..] else t;
    assert u[|u| - |b| - 1] == '.';
    assert !IsDigit('.');
  }
}
