/** Reading a vehicle's configuration: which measurements there are and where each one lies. */
module Vcm {
  import opened Wrappers
  import opened Bytes
  import opened Layout
  import opened Convert

  /** One more than the largest `size_t`. */
  const SIZE_T: nat := 0x1_0000_0000_0000_0000

  // ---------------------------------------------------------------- words and numbers

  predicate IsSpace(c: char) {
    c == ' ' || c == '\t' || c == '\r' || c == '\n' || c == '\U{0B}' || c == '\U{0C}'
  }

  /** The words of a line, as `>>` takes them from a string stream. */
  function Words(line: string): seq<string>
    decreases |line|
  {
    if |line| == 0 then []
    else if IsSpace(line[0]) then Words(line[1..])
    else
      var n := WordLength(line);
      [line[..n]] + Words(line[n..])
  }

  function WordLength(line: string): (n: nat)
    ensures n <= |line| && (|line| > 0 && !IsSpace(line[0]) ==> n > 0)
  {
    if |line| == 0 || IsSpace(line[0]) then 0 else 1 + WordLength(line[1..])
  }

  /** The `i`-th word, or an empty one. */
  function Word(ws: seq<string>, i: nat): string {
    if i < |ws| then ws[i] else ""
  }

  predicate Skipped(line: string) {
    |line| == 0 || line[0] == '#'
  }

  /** `std::stoi`: a number, `invalid_argument`, or `out_of_range`, which nobody catches. */
  datatype Parsed = Number(n: int) | Invalid | OutOfRange

  function DigitsValue(s: string, acc: nat): nat
    decreases |s|
  {
    if |s| > 0 && '0' <= s[0] <= '9' then DigitsValue(s[1..], 10 * acc + (s[0] as nat - '0' as nat)) else acc
  }

  function StoI(s: string): Parsed {
    var signed := |s| > 0 && (s[0] == '-' || s[0] == '+');
    var digits := if signed then s[1..] else s;
    if |digits| == 0 || !('0' <= digits[0] <= '9') then Invalid
    else
      var v := DigitsValue(digits, 0);
      var n: int := if signed && s[0] == '-' then -(v as int) else v;
      if INT_MIN <= n <= INT_MAX then Number(n) else OutOfRange
  }

  // ---------------------------------------------------------------- measurement definitions

  function KindOf(w: string): Option<Kind> {
    if w == "int" then Some(Integer) else if w == "float" then Some(Float)
    else if w == "string" then Some(Text) else if w == "" then Some(Undefined) else None
  }

  function EndianOf(w: string): Option<Endian> {
    if w == "big" then Some(BigEndian) else if w == "little" then Some(LittleEndian) else None
  }

  function SignOf(w: string): Option<Sign> {
    if w == "unsigned" then Some(Unsigned) else if w == "signed" || w == "" then Some(Signed) else None
  }

  datatype Definition = Defined(m: Measurement) | Refused | Thrown

  /** What a definition line means: a name, a size, and optionally a type, a byte order and a sign. */
  function DefinitionOf(ws: seq<string>): Definition {
    var kind, fourth, fifth := KindOf(Word(ws, 2)), Word(ws, 3), Word(ws, 4);
    var first := EndianOf(fourth);
    var endian := if first.Some? then first else if fifth == "" then Some(HOST) else EndianOf(fifth);
    var sign := SignOf(if first.Some? then fifth else fourth);
    match StoI(Word(ws, 1))
    case Invalid => Refused
    case OutOfRange => Thrown
    case Number(n) =>
      if kind.None? || endian.None? || sign.None? then Refused
      else Defined(Measurement([], n % SIZE_T, endian.value, kind.value, sign.value))
  }

  /** Byte order and sign may be given in either order. */
  lemma OrderOfOptionsIsFree(name: string, size: string, kind: string, endian: string, sign: string)
    requires EndianOf(endian).Some? && (sign == "signed" || sign == "unsigned")
    ensures DefinitionOf([name, size, kind, endian, sign]) == DefinitionOf([name, size, kind, sign, endian])
  {
  }

  // ---------------------------------------------------------------- tiling

  /** A measurement as one packet names it. */
  datatype Item = Item(meas: nat, size: nat)

  /** The place of an item: which packet, and the how-manieth in it. */
  datatype Slot = Slot(packet: nat, item: nat)

  /** Bytes taken by the first `t` items. */
  function Sum(items: seq<Item>, t: nat): nat
    requires t <= |items|
  {
    if t == 0 then 0 else Sum(items, t - 1) + items[t - 1].size
  }

  /** The same in a `size_t`. */
  function Offset(items: seq<Item>, t: nat): nat
    requires t <= |items|
  {
    Sum(items, t) % SIZE_T
  }

  lemma {:induction false} SumOfPrefix(items: seq<Item>, x: Item, t: nat)
    requires t <= |items|
    ensures Sum(items + [x], t) == Sum(items, t)
  {
    if t != 0 {
      SumOfPrefix(items, x, t - 1);
    }
  }

  /** One stored location stands for the item at `slot`. */
  predicate Stands(m: nat, loc: Location, slot: Slot, contents: seq<seq<Item>>) {
    && slot.packet < |contents| && slot.item < |contents[slot.packet]|
    && contents[slot.packet][slot.item].meas == m
    && loc == Location(Offset(contents[slot.packet], slot.item), slot.packet)
  }

  ghost predicate EntryTraced(m: nat, entry: Measurement, slots: seq<Slot>, contents: seq<seq<Item>>) {
    && |slots| == |entry.locations|
    && (forall j :: 0 <= j < |slots| ==> Stands(m, entry.locations[j], slots[j], contents))
    && (forall j, k :: 0 <= j < k < |slots| ==> slots[j] != slots[k])
  }

  ghost predicate ItemTraced(k: nat, t: nat, x: Item, entries: seq<Measurement>, slots: seq<seq<Slot>>) {
    x.meas < |entries| == |slots| && x.size == entries[x.meas].size && Slot(k, t) in slots[x.meas]
  }

  /** Stored locations and named items are the same thing, one to one. */
  ghost predicate Traced(entries: seq<Measurement>, slots: seq<seq<Slot>>, contents: seq<seq<Item>>) {
    && |slots| == |entries|
    && (forall m :: 0 <= m < |entries| ==> EntryTraced(m, entries[m], slots[m], contents))
    && (forall k, t :: 0 <= k < |contents| && 0 <= t < |contents[k]| ==>
          ItemTraced(k, t, contents[k][t], entries, slots))
  }

  /** A place in an earlier state is still that place after one more item in packet `k`. */
  lemma StandsOn(m: nat, loc: Location, slot: Slot, contents: seq<seq<Item>>, k: nat, x: Item)
    requires k < |contents| && Stands(m, loc, slot, contents)
    ensures Stands(m, loc, slot, contents[k := contents[k] + [x]])
  {
    SumOfPrefix(contents[slot.packet], x, slot.item);
  }

  /** Naming measurement `m` once more, in the packet being read. */
  lemma PlaceKeepsTraced(entries: seq<Measurement>, slots: seq<seq<Slot>>, contents: seq<seq<Item>>, m: nat, k: nat)
    requires Traced(entries, slots, contents) && m < |entries| && k < |contents|
    ensures var items := contents[k]; var e := entries[m];
      Traced(entries[m := e.(locations := e.locations + [Location(Offset(items, |items|), k)])],
             slots[m := slots[m] + [Slot(k, |items|)]],
             contents[k := items + [Item(m, e.size)]])
  {
    var items, e := contents[k], entries[m];
    var x := Item(m, e.size);
    var entries' := entries[m := e.(locations := e.locations + [Location(Offset(items, |items|), k)])];
    var slots' := slots[m := slots[m] + [Slot(k, |items|)]];
    var contents' := contents[k := items + [x]];
    forall i | 0 <= i < |entries'|
      ensures EntryTraced(i, entries'[i], slots'[i], contents')
    {
      assert EntryTraced(i, entries[i], slots[i], contents);
      forall j | 0 <= j < |slots[i]|
        ensures Stands(i, entries[i].locations[j], slots[i][j], contents')
      {
        StandsOn(i, entries[i].locations[j], slots[i][j], contents, k, x);
      }
      if i == m {
        SumOfPrefix(items, x, |items|);
      }
    }
    forall a, t | 0 <= a < |contents'| && 0 <= t < |contents'[a]|
      ensures ItemTraced(a, t, contents'[a][t], entries', slots')
    {
      if a == k && t == |items| {
        assert slots'[m][|slots[m]|] == Slot(k, |items|);
      } else {
        assert ItemTraced(a, t, contents[a][t], entries, slots);
        assert forall s :: s in slots[m] ==> s in slots'[m];
      }
    }
  }

  /** A new packet without items, or a new measurement without places. */
  lemma NewPacketKeepsTraced(entries: seq<Measurement>, slots: seq<seq<Slot>>, contents: seq<seq<Item>>)
    requires Traced(entries, slots, contents)
    ensures Traced(entries, slots, contents + [[]])
  {
  }

  lemma NewEntryKeepsTraced(entries: seq<Measurement>, slots: seq<seq<Slot>>, contents: seq<seq<Item>>, e: Measurement)
    requires Traced(entries, slots, contents) && e.locations == []
    ensures Traced(entries + [e], slots + [[]], contents)
  {
  }

  /** Every finished packet is as long as its items. */
  predicate Measured(packets: seq<PacketInfo>, contents: seq<seq<Item>>) {
    |packets| <= |contents| && forall k :: 0 <= k < |packets| ==> packets[k].size == Offset(contents[k], |contents[k]|)
  }

  /** The packet numbered `k` is being read and has `size` bytes so far. */
  predicate Open(contents: seq<seq<Item>>, k: nat, size: nat) {
    |contents| == k + 1 && size == Offset(contents[k], |contents[k]|)
  }

  /** One item more, of measurement `m`, in the packet numbered `k`. */
  predicate OneMore(before: seq<seq<Item>>, after: seq<seq<Item>>, k: nat, m: nat) {
    && |before| == |after| == k + 1 && after[..k] == before[..k]
    && |after[k]| == |before[k]| + 1 && before[k] <= after[k] && after[k][|before[k]|].meas == m
  }

  /** The names a packet lists in the lines from `from` to before `to`. */
  function Listed(lines: seq<string>, from: nat, to: nat): seq<string>
    requires from <= to <= |lines|
  {
    if to == from then []
    else Listed(lines, from, to - 1) + if Skipped(lines[to - 1]) then [] else [Word(Words(lines[to - 1]), 0)]
  }

  /** The items of a packet are what the names stand for, in order. */
  predicate AsListed(items: seq<Item>, names: seq<string>, addrMap: map<string, nat>) {
    |items| == |names| && forall t :: 0 <= t < |names| ==> names[t] in addrMap && items[t].meas == addrMap[names[t]]
  }

  /** A packet read from the lines from `from` to before `to`, with no brace yet. */
  predicate ReadSoFar(lines: seq<string>, from: nat, to: nat, items: seq<Item>, addrMap: map<string, nat>) {
    from <= to <= |lines| && |items| + from <= to
    && AsListed(items, Listed(lines, from, to), addrMap) && "}" !in Listed(lines, from, to)
  }

  /** The same, with the brace in the last of those lines. */
  predicate ReadAs(lines: seq<string>, from: nat, to: nat, items: seq<Item>, addrMap: map<string, nat>) {
    from < to <= |lines| && ReadSoFar(lines, from, to - 1, items, addrMap)
    && !Skipped(lines[to - 1]) && Word(Words(lines[to - 1]), 0) == "}"
  }

  lemma SkipOne(lines: seq<string>, from: nat, i: nat, items: seq<Item>, addrMap: map<string, nat>)
    requires i < |lines| && ReadSoFar(lines, from, i, items, addrMap) && Skipped(lines[i])
    ensures ReadSoFar(lines, from, i + 1, items, addrMap)
  {
  }

  lemma ListOne(lines: seq<string>, from: nat, i: nat, items: seq<Item>, items': seq<Item>, addrMap: map<string, nat>)
    requires i < |lines| && ReadSoFar(lines, from, i, items, addrMap) && !Skipped(lines[i])
    requires var token := Word(Words(lines[i]), 0);
      token != "}" && token in addrMap && |items'| == |items| + 1 && items <= items'
      && items'[|items|].meas == addrMap[token]
    ensures ReadSoFar(lines, from, i + 1, items', addrMap)
  {
  }

  lemma CloseKeepsMeasured(packets: seq<PacketInfo>, contents: seq<seq<Item>>, before: seq<seq<Item>>, p: PacketInfo,
                           from: nat, to: nat)
    requires Measured(packets, contents) && Open(contents, |packets|, p.size) && contents[..|packets|] == before
    requires (forall k :: 0 <= k < |before| ==> |before[k]| <= from) && from < to && |contents[|packets|]| < to
    ensures Measured(packets + [p], contents) && forall k :: 0 <= k < |contents| ==> |contents[k]| <= to
  {
  }

  lemma PlaceKeepsOpen(packets: seq<PacketInfo>, contents: seq<seq<Item>>, size: nat, x: Item)
    requires Measured(packets, contents) && Open(contents, |packets|, size)
    ensures var contents' := contents[|packets| := contents[|packets|] + [x]];
      && Measured(packets, contents') && Open(contents', |packets|, (size + x.size) % SIZE_T)
      && OneMore(contents, contents', |packets|, x.meas)
  {
    var items := contents[|packets|];
    SumOfPrefix(items, x, |items|);
    AddAfterWrap(Sum(items, |items|), x.size);
  }

  lemma AddAfterWrap(a: nat, b: nat)
    ensures (a % SIZE_T + b) % SIZE_T == (a + b) % SIZE_T
  {
  }

  // ---------------------------------------------------------------- what tiling gives

  /** Sizes as they come from a positive number in the file. */
  predicate SmallSizes(entries: seq<Measurement>) {
    forall m :: 0 <= m < |entries| ==> 0 < entries[m].size <= INT_MAX
  }

  predicate SmallItems(items: seq<Item>) {
    |items| < U32 && forall t :: 0 <= t < |items| ==> 0 < items[t].size <= INT_MAX
  }

  /** Offsets grow strictly from item to item, and do not wrap around. */
  lemma {:induction false} OffsetsGrow(items: seq<Item>, a: nat, b: nat)
    requires SmallItems(items) && a <= b <= |items|
    ensures Offset(items, a) == Sum(items, a) && Offset(items, b) == Sum(items, b) <= b * INT_MAX
    ensures a < b ==> Sum(items, a) + items[a].size <= Sum(items, b)
    decreases b
  {
    if b != 0 {
      if a < b {
        OffsetsGrow(items, a, b - 1);
      } else {
        OffsetsGrow(items, b - 1, b - 1);
      }
    }
  }

  /** Every byte of the first `n` items lies in one of them. */
  lemma {:induction false} ItemsCover(items: seq<Item>, n: nat, at: nat) returns (t: nat)
    requires n <= |items| && at < Sum(items, n)
    ensures t < n && Sum(items, t) <= at < Sum(items, t + 1)
  {
    if at >= Sum(items, n - 1) {
      t := n - 1;
    } else {
      t := ItemsCover(items, n - 1, at);
    }
  }

  /** A complete configuration: all packets finished. */
  ghost predicate Complete(entries: seq<Measurement>, packets: seq<PacketInfo>, slots: seq<seq<Slot>>,
                           contents: seq<seq<Item>>)
  {
    && Traced(entries, slots, contents) && Measured(packets, contents) && |packets| == |contents|
    && forall k :: 0 <= k < |contents| ==> |contents[k]| < U32
  }

  lemma ItemsAreSmall(entries: seq<Measurement>, packets: seq<PacketInfo>, slots: seq<seq<Slot>>,
                      contents: seq<seq<Item>>, k: nat)
    requires Complete(entries, packets, slots, contents) && SmallSizes(entries) && k < |contents|
    ensures SmallItems(contents[k])
  {
  }

  lemma PlaceInside(entries: seq<Measurement>, packets: seq<PacketInfo>, slots: seq<seq<Slot>>,
                    contents: seq<seq<Item>>, m: nat, j: nat)
    requires Complete(entries, packets, slots, contents) && SmallSizes(entries)
    requires m < |entries| && j < |entries[m].locations|
    ensures var loc, s := entries[m].locations[j], slots[m][j];
      && |slots[m]| == |entries[m].locations| && Stands(m, loc, s, contents)
      && contents[s.packet][s.item].size == entries[m].size
      && loc.packet < |packets| && loc.offset + entries[m].size <= packets[loc.packet].size
  {
    assert EntryTraced(m, entries[m], slots[m], contents);
    var s := slots[m][j];
    ItemsAreSmall(entries, packets, slots, contents, s.packet);
    assert ItemTraced(s.packet, s.item, contents[s.packet][s.item], entries, slots);
    OffsetsGrow(contents[s.packet], s.item, |contents[s.packet]|);
  }

  lemma PlacesApart(entries: seq<Measurement>, packets: seq<PacketInfo>, slots: seq<seq<Slot>>,
                    contents: seq<seq<Item>>, m: nat, j: nat, m': nat, j': nat)
    requires Complete(entries, packets, slots, contents) && SmallSizes(entries)
    requires m < |entries| && j < |entries[m].locations| && m' < |entries| && j' < |entries[m'].locations|
    requires m != m' || j != j'
    ensures Apart(Vehicle(packets, entries), m, j, m', j')
  {
    PlaceInside(entries, packets, slots, contents, m, j);
    PlaceInside(entries, packets, slots, contents, m', j');
    assert EntryTraced(m, entries[m], slots[m], contents);
    var s, s' := slots[m][j], slots[m'][j'];
    assert s != s';
    if s.packet == s'.packet {
      ItemsAreSmall(entries, packets, slots, contents, s.packet);
      if s.item < s'.item {
        OffsetsGrow(contents[s.packet], s.item, s'.item);
      } else {
        OffsetsGrow(contents[s.packet], s'.item, s.item);
      }
    }
  }

  /** The byte `at` of packet `k` belongs to the `j`-th place of measurement `m`. */
  predicate Holds(v: Vehicle, m: int, j: int, k: nat, at: nat) {
    Stored(v, m, j)
    && var loc := v.measurements[m].locations[j];
      loc.packet == k && loc.offset <= at < loc.offset + v.measurements[m].size
  }

  /** Every byte of every packet, from 0 to its size, belongs to a place, and to only one. */
  ghost predicate Tiled(v: Vehicle) {
    forall k: nat, at: nat :: k < |v.packets| && at < v.packets[k].size ==> HasOnePlace(v, k, at)
  }

  ghost predicate HasOnePlace(v: Vehicle, k: nat, at: nat) {
    exists m, j :: Holds(v, m, j, k, at) && OnlyHolder(v, m, j, k, at)
  }

  ghost predicate OnlyHolder(v: Vehicle, m: int, j: int, k: nat, at: nat) {
    forall m', j' :: Holds(v, m', j', k, at) ==> m' == m && j' == j
  }

  lemma ByteHasPlace(entries: seq<Measurement>, packets: seq<PacketInfo>, slots: seq<seq<Slot>>,
                     contents: seq<seq<Item>>, k: nat, at: nat)
      returns (m: nat, j: nat)
    requires Complete(entries, packets, slots, contents) && SmallSizes(entries)
    requires k < |packets| && at < packets[k].size
    ensures Holds(Vehicle(packets, entries), m, j, k, at)
  {
    var items := contents[k];
    ItemsAreSmall(entries, packets, slots, contents, k);
    OffsetsGrow(items, |items|, |items|);
    var t := ItemsCover(items, |items|, at);
    OffsetsGrow(items, t, |items|);
    assert ItemTraced(k, t, items[t], entries, slots);
    m := items[t].meas;
    assert EntryTraced(m, entries[m], slots[m], contents);
    j :| 0 <= j < |slots[m]| && slots[m][j] == Slot(k, t);
  }

  lemma HolderIsOnly(v: Vehicle, m: nat, j: nat, k: nat, at: nat)
    requires WellLaid(v) && Holds(v, m, j, k, at)
    ensures OnlyHolder(v, m, j, k, at)
  {
    forall m', j' | Holds(v, m', j', k, at)
      ensures m' == m && j' == j
    {
      assert m' != m || j' != j ==> Apart(v, m, j, m', j');
    }
  }

  /** Tiling: after a successful reading, every stored place lies inside an existing packet, no two
      overlap, and together they fill each packet from 0 to its size, whether a measurement is in
      many packets, repeats in one or was defined twice. */
  lemma TilingIsWellLaid(entries: seq<Measurement>, packets: seq<PacketInfo>, slots: seq<seq<Slot>>,
                         contents: seq<seq<Item>>)
    requires Complete(entries, packets, slots, contents) && SmallSizes(entries)
    ensures WellLaid(Vehicle(packets, entries)) && Tiled(Vehicle(packets, entries))
  {
    PlacesAreWellLaid(entries, packets, slots, contents);
    var v := Vehicle(packets, entries);
    forall k: nat, at: nat | k < |packets| && at < packets[k].size
      ensures HasOnePlace(v, k, at)
    {
      var m, j := ByteHasPlace(entries, packets, slots, contents, k, at);
      HolderIsOnly(v, m, j, k, at);
    }
  }

  lemma PlacesAreWellLaid(entries: seq<Measurement>, packets: seq<PacketInfo>, slots: seq<seq<Slot>>,
                          contents: seq<seq<Item>>)
    requires Complete(entries, packets, slots, contents) && SmallSizes(entries)
    ensures WellLaid(Vehicle(packets, entries))
  {
    var v := Vehicle(packets, entries);
    forall m, j | Stored(v, m, j)
      ensures Inside(v, m, j)
    {
      PlaceInside(entries, packets, slots, contents, m, j);
    }
    forall m, j, m', j' | Stored(v, m, j) && Stored(v, m', j') && (m != m' || j != j')
      ensures Apart(v, m, j, m', j')
    {
      PlacesApart(entries, packets, slots, contents, m, j, m', j');
    }
  }

  // ---------------------------------------------------------------- reading the file

  datatype Status = Success | Failure | Uncaught

  /** What a line inside a packet was: an item or nothing, the closing brace, an unknown name. */
  datatype LineRead = More | Closed | Unknown

  /** A port is stored in 16 bits; virtual packets have port 0. */
  function PortOf(w: string): nat {
    if w != "virtual" && StoI(w).Number? then StoI(w).n % 65536 else 0
  }

  /** No two packets that come over the network have the same port. */
  predicate PortsDiffer(packets: seq<PacketInfo>, ports: set<nat>) {
    && (forall k :: 0 <= k < |packets| && !packets[k].isVirtual ==> packets[k].port in ports)
    && (forall k, n :: 0 <= k < n < |packets| && !packets[k].isVirtual && !packets[n].isVirtual ==>
          packets[k].port != packets[n].port)
  }

  /** The next packet is virtual or its port, which is one of `ports`, is nobody else's. */
  predicate PortFits(packets: seq<PacketInfo>, ports: set<nat>, isVirtual: bool, p: nat) {
    isVirtual || (p in ports && forall k :: 0 <= k < |packets| && !packets[k].isVirtual ==> packets[k].port != p)
  }

  lemma NewPortDiffers(packets: seq<PacketInfo>, ports: set<nat>, p: PacketInfo)
    requires PortsDiffer(packets, ports) && p.port >= 0 && PortFits(packets, ports, p.isVirtual, p.port)
    ensures PortsDiffer(packets + [p], ports)
  {
  }

  /** A device in automatic mode. */
  datatype NetDevice = NetDevice(port: nat, id: nat)

  /** Every port has the device that listens on it, and no two devices have the same number. */
  predicate DevicesDiffer(devices: map<nat, NetDevice>, count: nat) {
    && (forall p :: p in devices ==> devices[p].port == p && devices[p].id < count)
    && (forall p, q :: p in devices && q in devices && p != q ==> devices[p].id != devices[q].id)
  }

  class VehicleConfig {
    const configDir: string
    /** Every `measurement_info_t` made so far, also those whose name was defined again. */
    var entries: seq<Measurement>
    var addrMap: map<string, nat>
    var measurements: seq<string>
    var packets: seq<PacketInfo>
    var portSet: set<nat>
    var autoPortMap: map<nat, NetDevice>
    var netMap: map<string, NetDevice>
    var netDevices: seq<string>
    var protocolSet: bool
    var port: nat
    var device: string
    var triggerFile: string
    var constFile: string
    ghost var slots: seq<seq<Slot>>
    ghost var contents: seq<seq<Item>>

    ghost predicate Valid()
      reads this
    {
      && Traced(entries, slots, contents) && Measured(packets, contents)
      && forall name :: name in addrMap ==> addrMap[name] < |entries|
    }

    ghost predicate Between(lines: nat)
      reads this
    {
      && Valid() && PortsDiffer(packets, portSet) && DevicesDiffer(autoPortMap, |netDevices|)
      && |packets| == |contents| && forall k :: 0 <= k < |contents| ==> |contents[k]| <= lines
    }

    constructor (dir: string)
      ensures Between(0) && !protocolSet && packets == [] && entries == [] && configDir == dir
    {
      configDir := dir;
      entries, addrMap, measurements, packets := [], map[], [], [];
      portSet, protocolSet, port := {}, false, 0;
      autoPortMap, netMap, netDevices := map[], map[], [];
      device, triggerFile, constFile := "", "", "";
      slots, contents := [], [];
    }

    function Vehicle(): Vehicle
      reads this
    {
      Layout.Vehicle(packets, entries)
    }

    /** A `net` line: a device that nobody else's port belongs to, numbered in the order of the lines. */
    method Net(ws: seq<string>, ghost lines: nat) returns (r: Status)
      requires Between(lines)
      modifies this`autoPortMap, this`netMap, this`netDevices
      ensures Between(lines)
      ensures r.Success? <==>
        Word(ws, 2) == "auto" && StoI(Word(ws, 3)).Number? && StoI(Word(ws, 3)).n % 65536 !in old(autoPortMap)
      ensures r.Success? ==>
        var device := NetDevice(StoI(Word(ws, 3)).n % 65536, |old(netDevices)|);
        && autoPortMap == old(autoPortMap)[device.port := device]
        && netMap == old(netMap)[Word(ws, 1) := device]
        && netDevices == old(netDevices) + [Word(ws, 1)]
      ensures !r.Success? ==> unchanged(this)
    {
      if Word(ws, 2) != "auto" {
        return Failure;
      }
      match StoI(Word(ws, 3))
      case Invalid => return Failure;
      case OutOfRange => return Uncaught;
      case Number(n) =>
        var p := n % 65536;
        if p in autoPortMap {
          return Failure;
        }
        var device := NetDevice(p, |netDevices|);
        autoPortMap := autoPortMap[p := device];
        netMap := netMap[Word(ws, 1) := device];
        netDevices := netDevices + [Word(ws, 1)];
        return Success;
    }

    /** A line of the form `key = value`. An unknown key, a port that is no number and a protocol
        other than udp are refused. */
    method Setting(ws: seq<string>) returns (r: Status)
      modifies this`port, this`protocolSet, this`device, this`triggerFile, this`constFile
      ensures var key, value := Word(ws, 0), Word(ws, 2);
        && (r.Success? <==> key in {"multicast", "name", "triggers", "constants"}
                            || (key == "protocol" && value == "udp")
                            || (key == "port" && StoI(value).Number?))
        && protocolSet == (old(protocolSet) || (key == "protocol" && value == "udp"))
        && port == (if key == "port" && StoI(value).Number? then StoI(value).n % 65536 else old(port))
        && device == (if key == "name" then value else old(device))
        && triggerFile == (if key == "triggers" then configDir + "/" + value else old(triggerFile))
        && constFile == (if key == "constants" then configDir + "/" + value else old(constFile))
    {
      var key, value := Word(ws, 0), Word(ws, 2);
      if key == "multicast" {
        return Success;
      } else if key == "port" {
        match StoI(value)
        case Invalid => return Failure;
        case OutOfRange => return Uncaught;
        case Number(n) => port := n % 65536;
      } else if key == "protocol" {
        if value != "udp" {
          return Failure;
        }
        protocolSet := true;
      } else if key == "name" {
        device := value;
      } else if key == "triggers" {
        triggerFile := configDir + "/" + value;
      } else if key == "constants" {
        constFile := configDir + "/" + value;
      } else {
        return Failure;
      }
      return Success;
    }

    /** A measurement definition: the name stands for the new entry from now on. */
    method Define(ws: seq<string>, ghost lines: nat) returns (r: Status)
      requires Between(lines)
      modifies this`entries, this`addrMap, this`measurements, this`slots
      ensures Between(lines)
      ensures Word(ws, 0) != "" && Word(ws, 1) != "" && DefinitionOf(ws).Defined? ==>
        r.Success? && entries == old(entries) + [DefinitionOf(ws).m]
        && addrMap == old(addrMap)[Word(ws, 0) := |old(entries)|]
      ensures !(Word(ws, 0) != "" && Word(ws, 1) != "" && DefinitionOf(ws).Defined?) ==>
        !r.Success? && entries == old(entries)
    {
      if Word(ws, 0) == "" || Word(ws, 1) == "" {
        return Failure;
      }
      var size := 0;
      match StoI(Word(ws, 1)) {
        case Invalid => return Failure;
        case OutOfRange => return Uncaught;
        case Number(n) => size := n % SIZE_T;
      }
      var kind := KindOf(Word(ws, 2));
      if kind.None? {
        return Failure;
      }
      var tok := Word(ws, 3);
      var endian := EndianOf(tok);
      tok := Word(ws, 4);
      if endian.None? {
        endian := EndianOf(tok);
        if endian.None? {
          if tok == "" {
            endian := Some(HOST);
          } else {
            return Failure;
          }
        }
        tok := Word(ws, 3);
      }
      var sign := SignOf(tok);
      if sign.None? {
        return Failure;
      }
      var e := Measurement([], size, endian.value, kind.value, sign.value);
      NewEntryKeepsTraced(entries, slots, contents, e);
      addrMap := addrMap[Word(ws, 0) := |entries|];
      measurements := measurements + [Word(ws, 0)];
      entries, slots := entries + [e], slots + [[]];
      return Success;
    }

    /** One name inside a packet. */
    method Place(name: string, size: nat) returns (known: bool, size': nat)
      requires Valid() && Open(contents, |packets|, size)
      modifies this`entries, this`slots, this`contents
      ensures Valid() && known == (name in addrMap)
      ensures known ==> Open(contents, |packets|, size') && OneMore(old(contents), contents, |packets|, addrMap[name])
    {
      if name !in addrMap {
        return false, size;
      }
      var m := addrMap[name];
      var e := entries[m];
      ghost var k := |packets|;
      PlaceKeepsTraced(entries, slots, contents, m, k);
      PlaceKeepsOpen(packets, contents, size, Item(m, e.size));
      ghost var t := |contents[k]|;
      size' := (size + e.size) % SIZE_T;
      entries := entries[m := e.(locations := e.locations + [Location(size, |packets|)])];
      slots := slots[m := slots[m] + [Slot(k, t)]];
      contents := contents[k := contents[k] + [Item(m, e.size)]];
      return true, size';
    }

    /** The kind and port of a packet, from its first word; no two packets share a port. */
    method PacketHead(w: string) returns (r: Status, isVirtual: bool, p: nat)
      requires PortsDiffer(packets, portSet)
      modifies this`portSet
      ensures PortsDiffer(packets, portSet) && (r.Success? ==> PortFits(packets, portSet, isVirtual, p))
      ensures r.Success? <==> w == "virtual" || (StoI(w).Number? && StoI(w).n % 65536 !in old(portSet))
      ensures r.Success? ==> isVirtual == (w == "virtual") && p == PortOf(w)
      ensures portSet == if r.Success? && w != "virtual" then old(portSet) + {p} else old(portSet)
    {
      isVirtual, p := false, 0;
      if w == "virtual" {
        isVirtual := true;
      } else {
        match StoI(w)
        case Invalid => return Failure, false, 0;
        case OutOfRange => return Uncaught, false, 0;
        case Number(n) =>
          p := n % 65536;
          if p in portSet {
            return Failure, false, 0;
          }
          portSet := portSet + {p};
      }
      r := Success;
    }

    /** In the middle of a packet, with the packets before it as they were. */
    ghost predicate Midway(lines: seq<string>, from: nat, i: nat, size: nat, before: seq<seq<Item>>)
      reads this
    {
      && Valid() && Open(contents, |packets|, size) && contents[..|packets|] == before
      && ReadSoFar(lines, from, i, contents[|packets|], addrMap)
    }

    /** Behind its closing brace. */
    ghost predicate Finished(lines: seq<string>, from: nat, i: nat, size: nat, before: seq<seq<Item>>)
      reads this
    {
      && Valid() && Open(contents, |packets|, size) && contents[..|packets|] == before
      && ReadAs(lines, from, i, contents[|packets|], addrMap)
    }

    /** One line of a packet that is neither blank nor its closing brace. */
    method ReadName(lines: seq<string>, from: nat, i: nat, size: nat) returns (known: bool, size': nat)
      requires Valid() && i < |lines| && Open(contents, |packets|, size)
      requires ReadSoFar(lines, from, i, contents[|packets|], addrMap)
      requires !Skipped(lines[i]) && Word(Words(lines[i]), 0) != "}"
      modifies this`entries, this`slots, this`contents
      ensures Valid() && (known ==> Open(contents, |packets|, size'))
      ensures known ==> contents[..|packets|] == old(contents[..|packets|])
      ensures known ==> ReadSoFar(lines, from, i + 1, contents[|packets|], addrMap)
    {
      ghost var items := contents[|packets|];
      known, size' := Place(Word(Words(lines[i]), 0), size);
      if known {
        ListOne(lines, from, i, items, contents[|packets|], addrMap);
      }
    }

    /** One line of a packet. */
    method ReadItem(lines: seq<string>, from: nat, i: nat, size: nat, ghost before: seq<seq<Item>>)
        returns (r: LineRead, size': nat)
      requires i < |lines| && Midway(lines, from, i, size, before)
      modifies this`entries, this`slots, this`contents
      ensures r.More? ==> Midway(lines, from, i + 1, size', before)
      ensures r.Closed? ==> Finished(lines, from, i + 1, size', before)
      ensures Valid()
    {
      r, size' := More, size;
      if Skipped(lines[i]) {
        SkipOne(lines, from, i, contents[|packets|], addrMap);
      } else if Word(Words(lines[i]), 0) == "}" {
        r := Closed;
      } else {
        var known;
        known, size' := ReadName(lines, from, i, size);
        if !known {
          r := Unknown;
        }
      }
    }

    lemma BeginMidway(lines: seq<string>, from: nat)
      requires Valid() && from <= |lines| && Open(contents, |packets|, 0) && contents[|packets|] == []
      ensures Midway(lines, from, from, 0, contents[..|packets|])
    {
    }

    /** The lines of one packet up to its closing brace. */
    method ReadItems(lines: seq<string>, from: nat) returns (done: bool, i: nat, size: nat)
      requires Valid() && from <= |lines| && Open(contents, |packets|, 0) && contents[|packets|] == []
      modifies this`entries, this`slots, this`contents
      ensures Valid() && (done ==> Finished(lines, from, i, size, old(contents[..|packets|])))
    {
      ghost var before := contents[..|packets|];
      i, size, done := from, 0, false;
      BeginMidway(lines, from);
      while i < |lines|
        invariant i <= |lines| && !done && Midway(lines, from, i, size, before)
      {
        var r;
        r, size := ReadItem(lines, from, i, size, before);
        i := i + 1;
        if !r.More? {
          done := r.Closed?;
          return;
        }
      }
    }

    /** A packet whose closing brace has been read. */
    method Close(p: PacketInfo, ghost before: seq<seq<Item>>, ghost from: nat, ghost to: nat)
      requires Valid() && Open(contents, |packets|, p.size) && DevicesDiffer(autoPortMap, |netDevices|)
      requires PortsDiffer(packets, portSet) && p.port >= 0 && PortFits(packets, portSet, p.isVirtual, p.port)
      requires contents[..|packets|] == before && |contents[|packets|]| < to && from < to
      requires forall k :: 0 <= k < |before| ==> |before[k]| <= from
      modifies this`packets
      ensures Between(to) && packets == old(packets) + [p]
    {
      NewPortDiffers(packets, portSet, p);
      CloseKeepsMeasured(packets, contents, before, p, from, to);
      packets := packets + [p];
    }

    /** The lines of one packet, from the one after its head. */
    method ReadBody(lines: seq<string>, from: nat, isVirtual: bool, p: nat) returns (done: bool, i: nat)
      requires Between(from) && from <= |lines| && PortFits(packets, portSet, isVirtual, p)
      modifies this`entries, this`slots, this`contents, this`packets
      ensures done ==> from < i <= |lines| && Between(i) && |packets| == |old(packets)| + 1
      ensures done ==> contents[..|old(contents)|] == old(contents)
      ensures done ==> ReadAs(lines, from, i, contents[|old(contents)|], addrMap)
      ensures done ==> var items := contents[|old(contents)|];
        packets == old(packets) + [PacketInfo(Offset(items, |items|), p, isVirtual)]
    {
      ghost var before := contents;
      NewPacketKeepsTraced(entries, slots, contents);
      contents := contents + [[]];
      var size;
      done, i, size := ReadItems(lines, from);
      if done {
        Close(PacketInfo(size, p, isVirtual), before, from, i);
      }
    }

    /** A packet: its head, already read as the word `w`, and the lines up to its closing brace. */
    method ReadPacket(lines: seq<string>, from: nat, w: string) returns (r: Status, i: nat)
      requires Between(from) && from <= |lines|
      modifies this
      ensures r.Success? ==> from < i <= |lines| && Between(i)
      ensures r.Success? ==> |packets| == |old(packets)| + 1 && addrMap == old(addrMap)
      ensures r.Success? ==> contents[..|old(contents)|] == old(contents)
      ensures r.Success? ==> ReadAs(lines, from, i, contents[|old(contents)|], addrMap)
      ensures r.Success? ==> var items := contents[|old(contents)|];
        packets == old(packets) + [PacketInfo(Offset(items, |items|), PortOf(w), w == "virtual")]
      ensures r.Success? && w != "virtual" ==>
        forall k :: 0 <= k < |old(packets)| && !packets[k].isVirtual ==> packets[k].port != PortOf(w)
    {
      i := from;
      var isVirtual, p;
      r, isVirtual, p := PacketHead(w);
      if !r.Success? {
        return;
      }
      var done;
      done, i := ReadBody(lines, from, isVirtual, p);
      if !done {
        r := Failure;
      }
    }

    /** One line outside packets, and with it the lines of the packet it starts. */
    method ReadLine(ws: seq<string>, lines: seq<string>, i: nat) returns (r: Status, next: nat)
      requires Between(i) && i <= |lines|
      modifies this
      ensures r.Success? ==> i <= next <= |lines| && Between(next)
    {
      next := i;
      if Word(ws, 0) == "net" {
        r := Net(ws, i);
      } else if Word(ws, 1) == "=" {
        r := Setting(ws);
      } else if Word(ws, 1) == "{" {
        r, next := ReadPacket(lines, i, Word(ws, 0));
      } else {
        r := Define(ws, i);
      }
    }

    /** `init`. */
    method Init(lines: seq<string>) returns (r: Status)
      requires Between(0)
      modifies this
      ensures r.Success? ==> protocolSet && Between(|lines|)
      ensures r.Success? && SmallSizes(entries) && |lines| < U32 ==> WellLaid(Vehicle()) && Tiled(Vehicle())
    {
      var i := 0;
      while i < |lines|
        invariant i <= |lines| && Between(i)
        decreases |lines| - i
      {
        var line := lines[i];
        i := i + 1;
        if Skipped(line) {
          continue;
        }
        r, i := ReadLine(Words(line), lines, i);
        if !r.Success? {
          return;
        }
      }
      if !protocolSet {
        return Failure;
      }
      if SmallSizes(entries) && |lines| < U32 {
        TilingIsWellLaid(entries, packets, slots, contents);
      }
      return Success;
    }
  }
}
