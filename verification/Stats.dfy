/** src/AggregateDomainStats.hh and the values carried by src/Message.hh. */
module Stats {
  import opened Numerals

  const TWO_63: int := 0x8000_0000_0000_0000
  const TWO_64: int := 0x1_0000_0000_0000_0000

  /** long long */
  type Int64 = x: int | -TWO_63 <= x < TWO_63
  /** unsigned long long, and unsigned long on the 64-bit hosts the monitor runs on */
  type UInt64 = x: int | 0 <= x < TWO_64

  /** Subtraction of long long, which wraps when the difference is out of range. */
  function Sub64(a: Int64, b: Int64): (r: Int64)
    ensures r == a - b <==> -TWO_63 <= a - b < TWO_63
    ensures r == a - b || r == a - b + TWO_64 || r == a - b - TWO_64
  {
    if a - b < -TWO_63 then a - b + TWO_64 else if a - b >= TWO_63 then a - b - TWO_64 else a - b
  }

  /** Subtraction of unsigned long long, which wraps when the difference is negative. */
  function SubUnsigned(a: UInt64, b: UInt64): (r: UInt64)
    ensures r == a - b <==> b <= a
    ensures r == a - b || r == a - b + TWO_64
  {
    if a < b then a - b + TWO_64 else a - b
  }

  datatype BlockStats = BlockStats(rdReq: Int64, wrReq: Int64, rdBytes: Int64, wrBytes: Int64, errs: Int64) {
    function Minus(b: BlockStats): BlockStats {
      BlockStats(Sub64(rdReq, b.rdReq), Sub64(wrReq, b.wrReq), Sub64(rdBytes, b.rdBytes),
                 Sub64(wrBytes, b.wrBytes), Sub64(errs, b.errs))
    }
  }

  datatype NetStats = NetStats(rxBytes: Int64, rxPackets: Int64, rxErrs: Int64, rxDrop: Int64,
                               txBytes: Int64, txPackets: Int64, txErrs: Int64, txDrop: Int64) {
    function Minus(n: NetStats): NetStats {
      NetStats(Sub64(rxBytes, n.rxBytes), Sub64(rxPackets, n.rxPackets), Sub64(rxErrs, n.rxErrs),
               Sub64(rxDrop, n.rxDrop), Sub64(txBytes, n.txBytes), Sub64(txPackets, n.txPackets),
               Sub64(txErrs, n.txErrs), Sub64(txDrop, n.txDrop))
    }
  }

  const NO_BLOCK := BlockStats(0, 0, 0, 0, 0)
  const NO_NET := NetStats(0, 0, 0, 0, 0, 0, 0, 0)

  /** The thirteen counters a tracker differences. */
  datatype Counter =
    | DiskReadReq | DiskWriteReq | DiskReadSize | DiskWriteSize | DiskErrors
    | RxBytes | RxPackets | RxErrs | RxDrop | TxBytes | TxPackets | TxErrs | TxDrop

  function Pick(c: Counter, b: BlockStats, n: NetStats): Int64 {
    match c
    case DiskReadReq => b.rdReq
    case DiskWriteReq => b.wrReq
    case DiskReadSize => b.rdBytes
    case DiskWriteSize => b.wrBytes
    case DiskErrors => b.errs
    case RxBytes => n.rxBytes
    case RxPackets => n.rxPackets
    case RxErrs => n.rxErrs
    case RxDrop => n.rxDrop
    case TxBytes => n.txBytes
    case TxPackets => n.txPackets
    case TxErrs => n.txErrs
    case TxDrop => n.txDrop
  }

  /** The counters of the block call; the others are those of the interface call. */
  predicate OfBlock(c: Counter) {
    c.DiskReadReq? || c.DiskWriteReq? || c.DiskReadSize? || c.DiskWriteSize? || c.DiskErrors?
  }

  /** One domain's entry; the block and interface deltas are grouped as libvirt groups them. */
  datatype DomainStats = DomainStats(id: int, uuid: string, cpu: Num, mem: Num, block: BlockStats, net: NetStats)

  datatype AggregateStats = AggregateStats(tov: Num, hostname: string, domains: seq<DomainStats>)

  /** A msgpack buffer by what it unpacks to; Opaque is one neither conversion accepts. */
  datatype Payload = Notice(instance: string) | Batch(agg: AggregateStats) | Opaque(bytes: string)

  datatype Message = Message(key: string, data: Payload)

  const TERM_KEY: string := "monitor.term_instance"
  const SERVERS_PREFIX: string := "monitor.servers."
}
