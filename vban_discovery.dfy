/**
 * vban_discovery.py: the discovery listener behind the source list. It keeps
 * one record per sender address `ip:port`, decodes the header with its own
 * seven-entry rate table, and drops records older than a maximum age whenever
 * a receive times out.
 */
module VbanDiscovery {
  import opened Outcome
  import Text
  import Pcm
  import VbanDetector

  type Byte = Pcm.Byte

  /** The `VBANSource` dataclass. */
  datatype VbanSource = VbanSource(ip: string, port: nat, streamName: string, lastSeen: real,
                                   sampleRate: nat, channels: nat)

  /** `_is_vban_packet`: at least four bytes, the first four spelling "VBAN". */
  predicate IsVbanPacket(data: seq<Byte>)
  {
    |data| >= 4 && data[..4] == VbanDetector.Magic
  }

  /** The discovery guard is weaker than the detector's: every datagram the detector accepts passes it, not conversely. */
  lemma GuardWeakerThanDetector(data: seq<Byte>)
    ensures VbanDetector.IsVbanDatagram(data) ==> IsVbanPacket(data)
    ensures data == VbanDetector.Magic ==> IsVbanPacket(data) && !VbanDetector.IsVbanDatagram(data)
  {
  }

  /** The seven-entry table of `_decode_sample_rate`. */
  const Rates: seq<nat> := [6000, 12000, 24000, 48000, 96000, 192000, 384000]

  const DefaultRate: nat := 48000

  /** `_decode_sample_rate`: the table entry for indices 0 to 6, 48000 for every other index. */
  function DecodeSampleRate(index: int): (hz: nat)
    ensures hz in Rates
    ensures 0 <= index < |Rates| ==> hz == Rates[index]
    ensures !(0 <= index < |Rates|) ==> hz == DefaultRate
  {
    if 0 <= index < |Rates| then Rates[index] else DefaultRate
  }

  /**
   * The two listeners read the rate from different bytes with different tables:
   * on the same index they agree below 7 and can disagree above (index 16 is
   * 44100 Hz to the detector, 48000 Hz here).
   */
  lemma RateTablesCompared(index: nat)
    ensures index < 7 ==> DecodeSampleRate(index) == VbanDetector.SampleRate(index)
    ensures DecodeSampleRate(16) == 48000 && VbanDetector.SampleRate(16) == 44100
  {
  }

  /** `bytes.decode('ascii')` (strict): `None` stands for the `UnicodeDecodeError` a byte above 127 raises. */
  function AsciiStrict(bytes: seq<Byte>): (r: Option<string>)
    ensures r.Some? <==> forall i :: 0 <= i < |bytes| ==> bytes[i] < 0x80
    ensures r.Some? ==> |r.value| == |bytes| && forall i :: 0 <= i < |bytes| ==> r.value[i] as int == bytes[i]
  {
    if bytes == [] then Some("")
    else if bytes[0] >= 0x80 then None
    else match AsciiStrict(bytes[1..])
      case None => None
      case Some(rest) => Some([bytes[0] as char] + rest)
  }

  /** `s.rstrip('\x00')`: drops trailing NUL characters and nothing else. */
  function RstripNul(s: string): (r: string)
    ensures |r| <= |s| && r == s[..|r|]
    ensures r == [] || r[|r| - 1] != '\0'
    ensures forall i :: |r| <= i < |s| ==> s[i] == '\0'
  {
    if s != [] && s[|s| - 1] == '\0' then RstripNul(s[..|s| - 1]) else s
  }

  /** `rstrip` is idempotent: a stripped name has nothing more to strip. */
  lemma RstripNulIdempotent(s: string)
    ensures RstripNul(RstripNul(s)) == RstripNul(s)
  {
  }

  /** The name field `data[8:24]`, shorter or empty when the packet is. */
  function NameField(data: seq<Byte>): (f: seq<Byte>)
    ensures |f| <= 16
    ensures |data| >= 24 ==> f == data[8..24]
  {
    if |data| <= 8 then [] else if |data| < 24 then data[8..] else data[8..24]
  }

  /** Every byte below 128, so that strict ASCII decoding succeeds. */
  predicate AllAscii(bytes: seq<Byte>)
  {
    forall i :: 0 <= i < |bytes| ==> bytes[i] < 0x80
  }

  /** `name` is the field read as characters with its trailing NULs removed. */
  predicate StrippedOf(name: string, field: seq<Byte>)
  {
    && |name| <= |field|
    && (name == [] || name[|name| - 1] != '\0')
    && (forall i :: 0 <= i < |name| ==> name[i] as int == field[i])
    && (forall i :: |name| <= i < |field| ==> field[i] == 0)
  }

  lemma DecodedStripped(field: seq<Byte>)
    requires AllAscii(field)
    ensures StrippedOf(RstripNul(AsciiStrict(field).value), field)
  {
    var s := AsciiStrict(field).value;
    var r := RstripNul(s);
    forall i | |r| <= i < |field| ensures field[i] == 0 {
      assert s[i] == '\0';
    }
  }

  /**
   * `_parse_vban_packet` for a packet from `ip`:`port` received at `now`: every
   * exception (a non-ASCII name byte, or a packet too short to have byte 7)
   * becomes `None`.
   */
  function ParsePacket(data: seq<Byte>, ip: string, port: nat, now: real): (r: Option<VbanSource>)
    ensures r.None? <==> |data| < 8 || !AllAscii(NameField(data))
    ensures r.Some? ==> r.value.ip == ip && r.value.port == port && r.value.lastSeen == now
    ensures r.Some? ==> r.value.channels == data[6] as int + 1 && 1 <= r.value.channels <= 256
    ensures r.Some? ==> r.value.sampleRate == DecodeSampleRate(data[7])
    ensures r.Some? ==> StrippedOf(r.value.streamName, NameField(data))
  {
    var field := NameField(data);
    var name := AsciiStrict(field);
    if name.None? || |data| < 8 then None
    else
      DecodedStripped(field);
      Some(VbanSource(ip, port, RstripNul(name.value), now, DecodeSampleRate(data[7]), data[6] as int + 1))
  }

  /** Parsing fails exactly on a packet shorter than eight bytes or with a byte above 127 among bytes 8 to 23. */
  lemma ParseFails(data: seq<Byte>, ip: string, port: nat, now: real)
    ensures ParsePacket(data, ip, port, now).None? <==> |data| < 8 || exists i :: 8 <= i < |data| && i < 24 && data[i] >= 0x80
  {
    var field := NameField(data);
    if |data| >= 8 && !AllAscii(field) {
      var j :| 0 <= j < |field| && field[j] >= 0x80;
      assert data[8 + j] == field[j];
    }
    if |data| >= 8 && exists i :: 8 <= i < |data| && i < 24 && data[i] >= 0x80 {
      var i :| 8 <= i < |data| && i < 24 && data[i] >= 0x80;
      assert field[i - 8] == data[i];
    }
  }

  /** A packet that passes the guard but is shorter than eight bytes is still dropped by the parser. */
  lemma ShortPacketDropped(data: seq<Byte>, ip: string, port: nat, now: real)
    requires IsVbanPacket(data) && |data| < 8
    ensures ParsePacket(data, ip, port, now) == None
  {
  }

  /** A name padded with NULs comes out without the padding. */
  lemma ParsePaddedName(data: seq<Byte>, ip: string, port: nat, now: real, name: string)
    requires |data| >= 24 && 0 < |name| <= 16
    requires forall i :: 0 <= i < |name| ==> 0 < name[i] as int < 0x80 && data[8 + i] == name[i] as int
    requires forall i :: 8 + |name| <= i < 24 ==> data[i] == 0
    ensures ParsePacket(data, ip, port, now).Some?
    ensures ParsePacket(data, ip, port, now).value.streamName == name
  {
    var field := NameField(data);
    assert field == data[8..24];
    var r := ParsePacket(data, ip, port, now);
    assert r.Some? by {
      forall i | 8 <= i < 24 ensures data[i] < 0x80 {
        if i < 8 + |name| {
          assert data[8 + (i - 8)] == name[i - 8] as int;
        }
      }
    }
    assert StrippedOf(name, field) by {
      assert name[|name| - 1] as int != 0;
      forall i | 0 <= i < |name| ensures name[i] as int == field[i] {
        assert field[i] == data[8 + i];
      }
      forall i | |name| <= i < |field| ensures field[i] == 0 {
        assert field[i] == data[8 + i];
      }
    }
    StrippedUnique(r.value.streamName, name, field);
  }

  /** The stripped reading of a field is unique. */
  lemma StrippedUnique(a: string, b: string, field: seq<Byte>)
    requires StrippedOf(a, field) && StrippedOf(b, field)
    ensures a == b
  {
    if a != [] {
      assert field[|a| - 1] == a[|a| - 1] as int != 0;
    }
    if b != [] {
      assert field[|b| - 1] == b[|b| - 1] as int != 0;
    }
    assert |a| == |b|;
    forall i | 0 <= i < |a| ensures a[i] == b[i] {
      assert a[i] as int == field[i] == b[i] as int;
    }
  }

  lemma {:induction false} RstripNulPadding(name: string, n: nat)
    requires name != [] && name[|name| - 1] != '\0'
    ensures RstripNul(name + seq(n, _ => '\0')) == name
  {
    if n > 0 {
      var s := name + seq(n, _ => '\0');
      assert s[..|s| - 1] == name + seq(n - 1, _ => '\0');
      RstripNulPadding(name, n - 1);
    } else {
      assert name + seq(0, _ => '\0') == name;
    }
  }

  /** The table key `f"{addr[0]}:{addr[1]}"`. */
  function Key(ip: string, port: nat): (k: string)
    ensures |k| > |ip| + 1
  {
    ip + ":" + Text.Decimal(port)
  }

  /** An address without a colon, as every IPv4 address is. */
  predicate ColonFree(ip: string)
  {
    forall i :: 0 <= i < |ip| ==> ip[i] != ':'
  }

  /** Distinct IPv4 senders get distinct keys: the key determines the address and the port. */
  lemma KeyInjective(ip1: string, port1: nat, ip2: string, port2: nat)
    requires ColonFree(ip1) && ColonFree(ip2)
    requires Key(ip1, port1) == Key(ip2, port2)
    ensures ip1 == ip2 && port1 == port2
  {
    var k := Key(ip1, port1);
    assert |ip1| == |ip2| by {
      assert k[|ip1|] == ':' && k[|ip2|] == ':';
    }
    assert ip1 == k[..|ip1|] == ip2;
    assert Text.Decimal(port1) == k[|ip1| + 1..] == Text.Decimal(port2);
    Text.DecimalInjective(port1, port2);
  }

  const DefaultMaxAge: real := 5.0

  /** The table `_cleanup_old_sources` builds: the entries seen at most `maxAge` seconds before `now`. */
  function Fresh(sources: map<string, VbanSource>, now: real, maxAge: real): (r: map<string, VbanSource>)
    ensures r.Keys <= sources.Keys
    ensures forall k :: k in r ==> r[k] == sources[k]
    ensures forall k :: k in sources ==> (k in r <==> now - sources[k].lastSeen <= maxAge)
  {
    map k | k in sources && now - sources[k].lastSeen <= maxAge :: sources[k]
  }

  /** A second cleanup at the same time removes nothing; a later one, or a stricter age, keeps no more. */
  lemma FreshMonotone(sources: map<string, VbanSource>, now: real, later: real, maxAge: real, tighter: real)
    requires now <= later && tighter <= maxAge
    ensures Fresh(Fresh(sources, now, maxAge), now, maxAge) == Fresh(sources, now, maxAge)
    ensures Fresh(sources, later, maxAge).Keys <= Fresh(sources, now, maxAge).Keys
    ensures Fresh(sources, now, tighter).Keys <= Fresh(sources, now, maxAge).Keys
  {
  }

  /** The two listeners agree on who is live: age at most five seconds here, not more than five there. */
  lemma FreshMatchesDetector(sources: map<string, VbanSource>, seen: map<string, VbanDetector.SourceInfo>, now: real)
    requires sources.Keys == seen.Keys
    requires forall k :: k in sources ==> sources[k].lastSeen == seen[k].lastSeen
    ensures Fresh(sources, now, DefaultMaxAge).Keys == VbanDetector.Live(seen, now).Keys
  {
  }

  /** Every record sits under the key of its own address. */
  predicate KeyedByAddress(sources: map<string, VbanSource>)
  {
    forall k :: k in sources ==> k == Key(sources[k].ip, sources[k].port)
  }

  /** Listing the records of distinct keys, all keys covered, lists every record once. */
  lemma ListedOnce(sources: map<string, VbanSource>, keys: seq<string>, list: seq<VbanSource>)
    requires KeyedByAddress(sources)
    requires |keys| == |list|
    requires forall i :: 0 <= i < |keys| ==> keys[i] in sources && list[i] == sources[keys[i]]
    requires forall i, j :: 0 <= i < j < |keys| ==> keys[i] != keys[j]
    requires forall k :: k in sources ==> k in keys
    ensures forall v :: v in list <==> v in sources.Values
    ensures forall i, j :: 0 <= i < j < |list| ==> list[i] != list[j]
  {
    forall v | v in list ensures v in sources.Values {
      var i :| 0 <= i < |list| && list[i] == v;
      assert sources[keys[i]] == v;
    }
    forall v | v in sources.Values ensures v in list {
      var k :| k in sources && sources[k] == v;
      var i :| 0 <= i < |keys| && keys[i] == k;
      assert list[i] == v;
    }
    forall i, j | 0 <= i < j < |list| ensures list[i] != list[j] {
      assert keys[i] == Key(list[i].ip, list[i].port);
      assert keys[j] == Key(list[j].ip, list[j].port);
    }
  }

  class Discovery {
    /** `self.sources`, keyed by `ip:port`. */
    var sources: map<string, VbanSource>

    /** Every record sits under the key of its own address. */
    ghost predicate Valid()
      reads this
    {
      KeyedByAddress(sources)
    }

    constructor ()
      ensures Valid() && sources == map[]
    {
      sources := map[];
    }

    /**
     * One datagram of `_discovery_loop` from `ip`:`port` at `now`: a packet that
     * passes the guard and parses replaces the record under its key; anything
     * else changes nothing.
     */
    method Receive(data: seq<Byte>, ip: string, port: nat, now: real) returns (stored: bool)
      requires Valid()
      modifies this
      ensures Valid()
      ensures stored <==> IsVbanPacket(data) && ParsePacket(data, ip, port, now).Some?
      ensures stored ==> sources == old(sources)[Key(ip, port) := ParsePacket(data, ip, port, now).value]
      ensures !stored ==> sources == old(sources)
    {
      stored := false;
      if |data| >= 4 && data[..4] == VbanDetector.Magic {
        var source := ParsePacket(data, ip, port, now);
        if source.Some? {
          sources := sources[Key(ip, port) := source.value];
          stored := true;
        }
      }
    }

    /** `_cleanup_old_sources(max_age)` at time `now`: the table is rebuilt from its fresh entries. */
    method CleanupOldSources(now: real, maxAge: real)
      requires Valid()
      modifies this
      ensures Valid()
      ensures sources == Fresh(old(sources), now, maxAge)
    {
      sources := map k | k in sources && now - sources[k].lastSeen <= maxAge :: sources[k];
    }

    /**
     * `get_active_sources`: a new list holding every record once. Dictionary
     * order is not modelled, so the list is specified up to order.
     */
    method ActiveSources() returns (list: seq<VbanSource>)
      requires Valid()
      ensures |list| == |sources|
      ensures forall v :: v in list <==> v in sources.Values
      ensures forall i, j :: 0 <= i < j < |list| ==> list[i] != list[j]
    {
      var table := sources;
      list := [];
      var pending := table.Keys;
      ghost var keys: seq<string> := [];
      while pending != {}
        invariant Listing(table, pending, keys, list)
        decreases |pending|
      {
        var k :| k in pending;
        ListingStep(table, pending, keys, list, k);
        list := list + [table[k]];
        keys := keys + [k];
        pending := pending - {k};
      }
      ListedOnce(table, keys, list);
    }
  }

  /**
   * The state of the listing loop: `list` holds the records of the distinct
   * keys `keys`, and every key is either listed or still `pending`.
   */
  ghost predicate Listing(table: map<string, VbanSource>, pending: set<string>, keys: seq<string>, list: seq<VbanSource>)
  {
    && pending <= table.Keys
    && |keys| == |list| && |list| + |pending| == |table|
    && (forall i :: 0 <= i < |keys| ==> keys[i] in table && list[i] == table[keys[i]] && keys[i] !in pending)
    && (forall i, j :: 0 <= i < j < |keys| ==> keys[i] != keys[j])
    && (forall k :: k in table ==> k in pending || k in keys)
  }

  lemma ListingStep(table: map<string, VbanSource>, pending: set<string>, keys: seq<string>, list: seq<VbanSource>, k: string)
    requires Listing(table, pending, keys, list) && k in pending
    ensures Listing(table, pending - {k}, keys + [k], list + [table[k]])
  {
    var keys', list' := keys + [k], list + [table[k]];
    forall i | 0 <= i < |keys'| ensures keys'[i] in table && list'[i] == table[keys'[i]] && keys'[i] !in pending - {k} {
      if i < |keys| {
        assert keys'[i] == keys[i] && list'[i] == list[i];
      }
    }
    forall k2 | k2 in table ensures k2 in pending - {k} || k2 in keys' {
      if k2 !in pending {
        assert k2 in keys;
        var i :| 0 <= i < |keys| && keys[i] == k2;
        assert keys'[i] == k2;
      } else if k2 == k {
        assert keys'[|keys|] == k;
      }
    }
  }

  /** A record stored at `seen` survives a default cleanup at `now` exactly when `now - seen <= 5`; other keys are untouched. */
  lemma StoredThenCleaned(sources: map<string, VbanSource>, key: string, source: VbanSource, now: real)
    ensures key in Fresh(sources[key := source], now, DefaultMaxAge) <==> now - source.lastSeen <= DefaultMaxAge
    ensures forall k :: k != key ==> (k in Fresh(sources[key := source], now, DefaultMaxAge) <==> k in Fresh(sources, now, DefaultMaxAge))
  {
  }
}
