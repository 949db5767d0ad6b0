/** What a vehicle's telemetry is: packets, the measurements in them and where each one lies. */
module Layout {
  import opened Bytes

  datatype Endian = BigEndian | LittleEndian
  datatype Kind = Undefined | Integer | Float | Text
  datatype Sign = Signed | Unsigned

  /** Byte order of the machine the ground station runs on. */
  const HOST: Endian := LittleEndian

  datatype Location = Location(offset: nat, packet: nat)

  datatype Measurement = Measurement(
    locations: seq<Location>, size: nat, endian: Endian, kind: Kind, sign: Sign)

  datatype PacketInfo = PacketInfo(size: nat, port: int, isVirtual: bool)

  datatype Vehicle = Vehicle(packets: seq<PacketInfo>, measurements: seq<Measurement>)

  /** `m` and `k` name the `k`-th place where measurement `m` is stored. */
  predicate Stored(v: Vehicle, m: int, k: int) {
    0 <= m < |v.measurements| && 0 <= k < |v.measurements[m].locations|
  }

  predicate Inside(v: Vehicle, m: int, k: int)
    requires Stored(v, m, k)
  {
    var loc := v.measurements[m].locations[k];
    loc.packet < |v.packets| && loc.offset + v.measurements[m].size <= v.packets[loc.packet].size
  }

  predicate Apart(v: Vehicle, m: int, k: int, m': int, k': int)
    requires Stored(v, m, k) && Stored(v, m', k')
  {
    var a, b := v.measurements[m].locations[k], v.measurements[m'].locations[k'];
    || a.packet != b.packet
    || a.offset + v.measurements[m].size <= b.offset
    || b.offset + v.measurements[m'].size <= a.offset
  }

  /** Every stored place lies inside its packet and no two of them share a byte. */
  ghost predicate WellLaid(v: Vehicle) {
    && (forall m :: 0 <= m < |v.measurements| ==> v.measurements[m].size > 0)
    && (forall m, k :: Stored(v, m, k) ==> Inside(v, m, k))
    && (forall m, k, m', k' ::
          Stored(v, m, k) && Stored(v, m', k') && (m != m' || k != k') ==> Apart(v, m, k, m', k'))
  }

  /** `TelemetryWriter` takes a per-packet lock exactly for these packets. */
  predicate Lockable(v: Vehicle, i: int) {
    0 <= i < |v.packets| && v.packets[i].isVirtual && v.packets[i].size > 0
  }

  /** The bytes of host-order `data` in the byte order of the measurement. */
  function Ordered(m: Measurement, data: seq<byte>): (r: seq<byte>)
    ensures |r| == |data|
  {
    if m.endian == HOST then data else Reversed(data)
  }
}
