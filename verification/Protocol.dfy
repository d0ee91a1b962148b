/** The proxy's view of MySQL packets: the command byte that selects a packet
    type, and the error packet it can build. */
module Protocol {
  import opened Basics

  datatype PacketType =
    | ComSleep | ComQuit | ComInitDb | ComQuery | ComFieldList | ComCreateDb
    | ComDropDb | ComRefresh | ComShutdown | ComStatistics | ComProcessInfo
    | ComConnect | ComProcessKill | ComDebug | ComPing | ComTime
    | ComDelayedInsert | ComChangeUser | ComBinlogDump | ComTableDump
    | ComConnectOut | ComRegisterSlave | ComStmtPrepare | ComStmtExecute
    | ComStmtSendLongData | ComStmtClose | ComStmtReset | ComDaemon
    | ComBinlogDumpGtid | ComResetConnection

  /** The packet type of a command byte; 0x1b, 0x1c and everything from 0x20
      upwards are unknown. */
  function TypeOfCode(code: byte): Option<PacketType> {
    match code as int
    case 0x00 => Some(ComSleep)
    case 0x01 => Some(ComQuit)
    case 0x02 => Some(ComInitDb)
    case 0x03 => Some(ComQuery)
    case 0x04 => Some(ComFieldList)
    case 0x05 => Some(ComCreateDb)
    case 0x06 => Some(ComDropDb)
    case 0x07 => Some(ComRefresh)
    case 0x08 => Some(ComShutdown)
    case 0x09 => Some(ComStatistics)
    case 0x0a => Some(ComProcessInfo)
    case 0x0b => Some(ComConnect)
    case 0x0c => Some(ComProcessKill)
    case 0x0d => Some(ComDebug)
    case 0x0e => Some(ComPing)
    case 0x0f => Some(ComTime)
    case 0x10 => Some(ComDelayedInsert)
    case 0x11 => Some(ComChangeUser)
    case 0x12 => Some(ComBinlogDump)
    case 0x13 => Some(ComTableDump)
    case 0x14 => Some(ComConnectOut)
    case 0x15 => Some(ComRegisterSlave)
    case 0x16 => Some(ComStmtPrepare)
    case 0x17 => Some(ComStmtExecute)
    case 0x18 => Some(ComStmtSendLongData)
    case 0x19 => Some(ComStmtClose)
    case 0x1a => Some(ComStmtReset)
    case 0x1d => Some(ComDaemon)
    case 0x1e => Some(ComBinlogDumpGtid)
    case 0x1f => Some(ComResetConnection)
    case _ => None
  }

  /** The command byte of a packet type, as the enumeration declares it. */
  function CodeOf(t: PacketType): byte {
    match t
    case ComSleep => 0x00 case ComQuit => 0x01 case ComInitDb => 0x02 case ComQuery => 0x03
    case ComFieldList => 0x04 case ComCreateDb => 0x05 case ComDropDb => 0x06 case ComRefresh => 0x07
    case ComShutdown => 0x08 case ComStatistics => 0x09 case ComProcessInfo => 0x0a case ComConnect => 0x0b
    case ComProcessKill => 0x0c case ComDebug => 0x0d case ComPing => 0x0e case ComTime => 0x0f
    case ComDelayedInsert => 0x10 case ComChangeUser => 0x11 case ComBinlogDump => 0x12 case ComTableDump => 0x13
    case ComConnectOut => 0x14 case ComRegisterSlave => 0x15 case ComStmtPrepare => 0x16 case ComStmtExecute => 0x17
    case ComStmtSendLongData => 0x18 case ComStmtClose => 0x19 case ComStmtReset => 0x1a case ComDaemon => 0x1d
    case ComBinlogDumpGtid => 0x1e case ComResetConnection => 0x1f
  }

  /** A packet has a type exactly when its fifth byte is that type's declared code. */
  lemma TypeByCode(packet: Bytes, t: PacketType)
    requires |packet| > 4
    ensures Packet(packet).PacketType() == Some(t) <==> packet[4] == CodeOf(t)
    ensures Packet(packet).PacketType().None? <==> packet[4] == 0x1b || packet[4] == 0x1c || packet[4] >= 0x20
  {
  }

  datatype Packet = Packet(bytes: Bytes) {
    function SequenceId(): byte
      requires |bytes| > 3
    {
      bytes[3]
    }

    /** Reading the fifth byte is what the proxy does first; a shorter packet
        makes it panic, so callers must rule it out. */
    function PacketType(): Option<PacketType>
      requires |bytes| > 4
    {
      TypeOfCode(bytes[4])
    }
  }

  // ---- the error packet -------------------------------------------------

  function Low(n: nat): byte {
    (n % 256) as byte
  }

  function ErrorPayload(code: nat, state: Bytes, msg: Bytes): Bytes {
    [0xff, Low(code), Low(code / 256), 35] + state + msg
  }

  /** Three little-endian length bytes, the sequence number, the payload. */
  function ErrorBytes(code: nat, state: Bytes, msg: Bytes): Bytes {
    var n := |ErrorPayload(code, state, msg)|;
    [Low(n), Low(n / 256), Low(n / 65536), 1] + ErrorPayload(code, state, msg)
  }

  lemma LowPlus(k: nat, x: nat)
    ensures Low(k * 256 + x) == Low(x)
  {
  }

  lemma LowOfWord(n: nat)
    ensures Low(n % 0x1_0000_0000) == Low(n)
    ensures Low(n % 0x1_0000_0000 / 256) == Low(n / 256)
    ensures Low(n % 0x1_0000_0000 / 65536) == Low(n / 65536)
  {
    var q, r := n / 0x1_0000_0000, n % 0x1_0000_0000;
    assert n == (q * 0x100_0000) * 256 + r;
    LowPlus(q * 0x100_0000, r);
    assert n / 256 == (q * 0x1_0000) * 256 + r / 256;
    LowPlus(q * 0x1_0000, r / 256);
    assert n / 65536 == (q * 0x100) * 256 + r / 65536;
    LowPlus(q * 0x100, r / 65536);
  }

  /** Builds the packet by the same pushes and pops as the proxy: a four byte
      length loses its top byte to make room for the sequence number. */
  method ErrorPacket(code: nat, state: Bytes, msg: Bytes) returns (packet: Packet)
    requires code < 0x1_0000 && |state| == 5
    ensures packet.bytes == ErrorBytes(code, state, msg)
    ensures var b := packet.bytes;
            && |b| == 13 + |msg| && b[3] == 1 && b[4] == 0xff && b[7] == 35
            && b[5] as nat == code % 256 && b[6] as nat == code / 256 && b[8..13] == state && b[13..] == msg
  {
    var payload: Bytes := [];
    payload := payload + [0xff];
    payload := payload + [Low(code), Low(code / 256)];
    payload := payload + [35];
    payload := payload + state;
    payload := payload + msg;
    var size := |payload| % 0x1_0000_0000;
    var header: Bytes := [Low(size), Low(size / 256), Low(size / 65536), Low(size / 16777216)];
    header := header[..|header| - 1];
    header := header + [1];
    LowOfWord(|payload|);
    assert header == [Low(|payload|), Low(|payload| / 256), Low(|payload| / 65536), 1];
    assert payload == ErrorPayload(code, state, msg);
    packet := Packet(header + payload);
    assert packet.bytes[8..13] == state && packet.bytes[13..] == msg;
  }

  datatype ErrorFields = ErrorFields(sequence: byte, code: nat, state: Bytes, msg: Bytes)

  function DeclaredLength(bytes: Bytes): nat
    requires |bytes| >= 3
  {
    bytes[0] as nat + 256 * bytes[1] as nat + 65536 * bytes[2] as nat
  }

  /** An independent reader of ERR packets. */
  function DecodeError(bytes: Bytes): Option<ErrorFields> {
    if |bytes| < 13 || DeclaredLength(bytes) != |bytes| - 4 || bytes[4] != 0xff || bytes[7] != 35 then None
    else Some(ErrorFields(Packet(bytes).SequenceId(), bytes[5] as nat + 256 * bytes[6] as nat, bytes[8..13], bytes[13..]))
  }

  lemma LittleEndian(n: nat)
    ensures Low(n) as nat + 256 * Low(n / 256) as nat + 65536 * Low(n / 65536) as nat == n % 0x100_0000
  {
    var m, k := n / 256, n / 65536;
    assert n == 256 * m + n % 256;
    assert k == m / 256 && m == 256 * k + m % 256;
    assert n / 0x100_0000 == k / 256 && k == 256 * (n / 0x100_0000) + k % 256;
  }

  /** Encoding then decoding gives the fields back exactly when the payload
      length fits in three bytes. */
  lemma ErrorRoundTrip(code: nat, state: Bytes, msg: Bytes)
    requires code < 0x1_0000 && |state| == 5
    ensures DecodeError(ErrorBytes(code, state, msg)) == Some(ErrorFields(1, code, state, msg))
       <==> |ErrorPayload(code, state, msg)| < 0x100_0000
  {
    var bytes := ErrorBytes(code, state, msg);
    var n := |ErrorPayload(code, state, msg)|;
    LittleEndian(n);
    assert |bytes| == n + 4;
    assert bytes[8..13] == state;
    assert bytes[13..] == msg;
  }

  lemma LowBytes(a: byte, b: byte, c: byte)
    ensures var n := a as nat + 256 * b as nat + 65536 * c as nat;
            Low(n) == a && Low(n / 256) == b && Low(n / 65536) == c
  {
    var n := a as nat + 256 * b as nat + 65536 * c as nat;
    assert n / 256 == b as nat + 256 * c as nat;
  }

  /** Whatever decodes with sequence number 1 is an error packet of the
      proxy: the decoder accepts nothing else. */
  lemma ErrorDecodeSound(bytes: Bytes)
    requires DecodeError(bytes).Some? && DecodeError(bytes).value.sequence == 1
    ensures var f := DecodeError(bytes).value; ErrorBytes(f.code, f.state, f.msg) == bytes
  {
    var f := DecodeError(bytes).value;
    var payload := ErrorPayload(f.code, f.state, f.msg);
    assert payload == bytes[4..] by {
      LowBytes(bytes[5], bytes[6], 0);
      assert bytes[4..] == bytes[4..8] + bytes[8..13] + bytes[13..];
      assert bytes[4..8] == [bytes[4], bytes[5], bytes[6], bytes[7]];
    }
    LowBytes(bytes[0], bytes[1], bytes[2]);
    assert bytes == [bytes[0], bytes[1], bytes[2], bytes[3]] + bytes[4..];
  }
}
