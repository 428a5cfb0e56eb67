/**
 * vban_detector_new.py: the VBAN listener that the detection pipeline uses.
 * Each accepted datagram refreshes the sender's entry in a table keyed by IP
 * address and feeds its samples into a bounded deque; a receive timeout evicts
 * the senders not seen for more than five seconds.
 */
module VbanDetector {
  import opened Outcome
  import Text
  import Windowing
  import Pcm

  type Byte = Pcm.Byte

  /** The ASCII bytes of "VBAN". */
  const Magic: seq<Byte> := [0x56, 0x42, 0x41, 0x4E]

  const HeaderSize: nat := 28

  /** The deque holds one second at 48 kHz. */
  const MaxBuffered: nat := 48000

  /** Seconds without a packet after which a sender is evicted. */
  const Timeout: real := 5.0

  /** The guard of the receive loop: at least a full header, starting with the magic. */
  predicate IsVbanDatagram(data: seq<Byte>)
  {
    |data| >= HeaderSize && data[..4] == Magic
  }

  /** The sample-rate index, the low five bits of byte 4 (`byte4 & 0x1F`, see `ByteFourFields`). */
  function RateIndex(b4: Byte): (i: nat)
    ensures i < 32
  {
    b4 % 32
  }

  /** This decoder takes the channel count from the top three bits of byte 4 (`((byte4 & 0xE0) >> 5) + 1`). */
  function Channels(b4: Byte): (c: nat)
    ensures 1 <= c <= 8
  {
    b4 / 32 + 1
  }

  /** The two fields are the masks the decoder applies to the bits of byte 4. */
  lemma ByteFourMasks(x: bv8)
    ensures RateIndex(x as int) == (x & 0x1F) as int
    ensures Channels(x as int) == ((x & 0xE0) >> 5) as int + 1
  {
    MaskLow(x);
    MaskHigh(x);
  }

  lemma MaskLow(x: bv8)
    ensures (x & 0x1F) as int == x as int % 32
  {
  }

  lemma MaskHigh(x: bv8)
    ensures ((x & 0xE0) >> 5) as int == x as int / 32
  {
  }

  /** Together the two fields determine byte 4. */
  lemma ByteFourFields(b4: Byte)
    ensures RateIndex(b4) + 32 * (Channels(b4) - 1) == b4
  {
  }

  /** The 20-entry rate table, index order as in the VBAN protocol. */
  const Rates: seq<nat> := [6000, 12000, 24000, 48000, 96000, 192000, 384000, 8000, 16000,
                            32000, 64000, 128000, 256000, 512000, 11025, 22050, 44100, 88200,
                            176400, 352800]

  /** `sample_rates.get(sr_index, 44100)`: an index outside the table silently reads as 44100 Hz. */
  function SampleRate(index: nat): (hz: nat)
    ensures hz > 0
    ensures hz in Rates
  {
    if index < |Rates| then Rates[index] else 44100
  }

  lemma SampleRateExamples(index: nat)
    ensures SampleRate(3) == 48000 && SampleRate(16) == 44100 && SampleRate(8) == Windowing.TargetRate
    ensures 20 <= index ==> SampleRate(index) == 44100
  {
  }

  // ---------------------------------------------------------------------------
  // Stream-name cleaning (`clean_vban_name`)

  /** A byte the name loop accepts: printable ASCII, 32 to 126. */
  predicate Printable(b: Byte)
  {
    32 <= b <= 126
  }

  /** Index of the first byte that is NUL or not printable, or the length when there is none. */
  function FirstUnprintable(raw: seq<Byte>): (k: nat)
    ensures k <= |raw|
    ensures forall j :: 0 <= j < k ==> Printable(raw[j])
    ensures k < |raw| ==> !Printable(raw[k])
  {
    if raw == [] || !Printable(raw[0]) then 0 else 1 + FirstUnprintable(raw[1..])
  }

  /** `end_idx` after the `for` loop: the first unprintable index, or 0 when every byte is printable. */
  function EndIndex(raw: seq<Byte>): nat
  {
    if FirstUnprintable(raw) < |raw| then FirstUnprintable(raw) else 0
  }

  /** `bytes.decode('ascii', errors='ignore')`: bytes 0 to 127 become characters, the rest are dropped. */
  function AsciiIgnore(bytes: seq<Byte>): (s: string)
    ensures |s| <= |bytes|
    ensures forall c :: c in s ==> c < '\U{80}'
  {
    if bytes == [] then ""
    else (if bytes[0] < 0x80 then [bytes[0] as char] else []) + AsciiIgnore(bytes[1..])
  }

  /** Characters the trimming loop stops at. */
  predicate KeepsEnd(c: char)
  {
    Text.IsAsciiAlnum(c) || Text.IsSpace(c)
  }

  /** The `while` loop: drop the last character while it is neither alphanumeric nor whitespace. */
  function TrimJunk(s: string): (r: string)
    ensures |r| <= |s| && r == s[..|r|]
    ensures r == [] || KeepsEnd(r[|r| - 1])
    ensures forall c :: c in r ==> c in s
  {
    if s != [] && !KeepsEnd(s[|s| - 1]) then TrimJunk(s[..|s| - 1]) else s
  }

  /** The decode, `strip()` and trimming steps that follow the cut. */
  function Tidy(bytes: seq<Byte>): (name: string)
    ensures |name| <= |bytes|
    ensures name == [] || KeepsEnd(name[|name| - 1])
    ensures bytes == [] ==> name == []
    ensures forall c :: c in name ==> c < '\U{80}'
  {
    TrimJunk(Text.Strip(AsciiIgnore(bytes)))
  }

  /** The name `clean_vban_name` returns for the bytes `raw`, exactly as written. */
  function CleanedName(raw: seq<Byte>): string
  {
    var kept := if EndIndex(raw) > 0 then raw[..EndIndex(raw)] else raw;
    Tidy(kept)
  }

  /**
   * `clean_vban_name` on a byte string: a `for` loop finds the cut, a `while`
   * loop trims the end. The result never ends in a character that is neither
   * alphanumeric nor whitespace, and holds only ASCII.
   */
  method CleanVbanName(raw: seq<Byte>) returns (name: string)
    ensures name == CleanedName(raw)
    ensures name == [] || KeepsEnd(name[|name| - 1])
    ensures forall i :: 0 <= i < |name| ==> name[i] < '\U{80}'
  {
    var endIdx := FindCut(raw);
    var kept := raw;
    if endIdx > 0 {
      kept := raw[..endIdx];
    }
    name := TrimTrailingJunk(Text.Strip(AsciiIgnore(kept)));
    forall i | 0 <= i < |name| ensures name[i] < '\U{80}' {
      assert name[i] in name;
    }
  }

  /** The `for` loop of `clean_vban_name`: the index of the first unprintable byte, 0 when there is none. */
  method FindCut(raw: seq<Byte>) returns (endIdx: nat)
    ensures endIdx == EndIndex(raw)
  {
    endIdx := 0;
    for i := 0 to |raw|
      invariant forall j :: 0 <= j < i ==> Printable(raw[j])
    {
      if raw[i] == 0 || !(32 <= raw[i] <= 126) {
        endIdx := i;
        FirstUnprintableAt(raw, i);
        return;
      }
    }
    FirstUnprintableAll(raw);
  }

  /** The `while` loop of `clean_vban_name`: drops trailing characters that are neither alphanumeric nor whitespace. */
  method TrimTrailingJunk(s: string) returns (name: string)
    ensures name == TrimJunk(s)
  {
    name := s;
    while name != [] && !(Text.IsAsciiAlnum(name[|name| - 1]) || Text.IsSpace(name[|name| - 1]))
      invariant TrimJunk(name) == TrimJunk(s)
      decreases |name|
    {
      TrimJunkStep(name);
      name := name[..|name| - 1];
    }
    TrimJunkFixed(name);
  }

  /** One turn of the trimming loop leaves the final result unchanged. */
  lemma TrimJunkStep(s: string)
    requires s != [] && !(Text.IsAsciiAlnum(s[|s| - 1]) || Text.IsSpace(s[|s| - 1]))
    ensures TrimJunk(s) == TrimJunk(s[..|s| - 1])
  {
  }

  /** The trimming loop stops once the last character is kept. */
  lemma TrimJunkFixed(s: string)
    requires !(s != [] && !(Text.IsAsciiAlnum(s[|s| - 1]) || Text.IsSpace(s[|s| - 1])))
    ensures TrimJunk(s) == s
  {
  }

  /** The cut the `for` loop finds is the first unprintable byte. */
  lemma FirstUnprintableAt(raw: seq<Byte>, k: nat)
    requires k < |raw| && !Printable(raw[k])
    requires forall j :: 0 <= j < k ==> Printable(raw[j])
    ensures FirstUnprintable(raw) == k
  {
  }

  /** When the cut is past the first byte, the name is built from the printable bytes before it only. */
  lemma CleanedNamePrintable(raw: seq<Byte>)
    requires EndIndex(raw) > 0
    ensures var name := CleanedName(raw);
      |name| <= EndIndex(raw) && forall i :: 0 <= i < |name| ==> ' ' <= name[i] <= '~'
  {
    var k := EndIndex(raw);
    var kept := raw[..k];
    assert k == FirstUnprintable(raw) < |raw|;
    assert forall j :: 0 <= j < |kept| ==> Printable(kept[j]);
    assert CleanedName(raw) == Tidy(kept);
    TrimmedPrintable(kept);
  }

  /** Decoding, stripping and trimming printable bytes leaves at most that many printable characters. */
  lemma TrimmedPrintable(bytes: seq<Byte>)
    requires forall j :: 0 <= j < |bytes| ==> Printable(bytes[j])
    ensures var name := Tidy(bytes);
      |name| <= |bytes| && forall i :: 0 <= i < |name| ==> ' ' <= name[i] <= '~'
  {
    AsciiIgnorePrintable(bytes);
    var name := TrimJunk(Text.Strip(AsciiIgnore(bytes)));
    forall i | 0 <= i < |name| ensures ' ' <= name[i] <= '~' {
      assert name[i] in name;
    }
  }

  lemma {:induction false} AsciiIgnorePrintable(bytes: seq<Byte>)
    requires forall j :: 0 <= j < |bytes| ==> Printable(bytes[j])
    ensures |AsciiIgnore(bytes)| == |bytes|
    ensures forall c :: c in AsciiIgnore(bytes) ==> ' ' <= c <= '~'
  {
    if bytes != [] {
      AsciiIgnorePrintable(bytes[1..]);
      assert AsciiIgnore(bytes) == [bytes[0] as char] + AsciiIgnore(bytes[1..]);
    }
  }

  /** An all-zero name field, and the sixteen NUL characters it decodes to. */
  const ZeroField: seq<Byte> := seq(16, _ => 0)
  const NulChars: string := seq(16, _ => '\0')

  /**
   * As written, a name field whose first byte is NUL is not cut at all: with an
   * all-zero name field and a frame counter of 0x41, the name read from
   * `data[8:28]` is sixteen NUL characters followed by "A" instead of the empty name.
   */
  lemma CleanedNameKeepsNulField(data: seq<Byte>)
    requires |data| >= HeaderSize && data[8..28] == ZeroField + [0x41, 0, 0, 0]
    ensures CleanedName(data[8..28]) == NulChars + "A"
  {
    var raw := data[8..28];
    assert FirstUnprintable(raw) == 0 by { assert !Printable(raw[0]); }
    assert CleanedName(raw) == Tidy(raw);
    NulFieldTidy(raw);
  }

  lemma NulFieldTidy(raw: seq<Byte>)
    requires raw == ZeroField + [0x41, 0, 0, 0]
    ensures Tidy(raw) == NulChars + "A"
  {
    var kept := NulChars + "A";
    var decoded := kept + "\0\0\0";
    AsciiIgnoreSmall(raw, decoded);
    assert decoded[0] == '\0' && decoded[16] == 'A' && decoded[19] == '\0';
    assert !KeepsEnd('\0') && KeepsEnd('A');
    TidyTrimmed(decoded, 17);
    assert decoded[..17] == kept;
  }

  /**
   * A string with no whitespace at either end is left alone by `strip()`, and
   * trimming then stops at the last character it keeps.
   */
  lemma TidyTrimmed(s: string, k: nat)
    requires 0 < k <= |s| && !Text.IsSpace(s[0]) && !Text.IsSpace(s[|s| - 1])
    requires KeepsEnd(s[k - 1]) && forall i :: k <= i < |s| ==> !KeepsEnd(s[i])
    ensures TrimJunk(Text.Strip(s)) == s[..k]
  {
    assert Text.TrimStart(s) == s;
    assert Text.TrimEnd(s) == s;
    TrimJunkCut(s, k);
  }

  /** Trimming stops at the last character it keeps. */
  lemma {:induction false} TrimJunkCut(s: string, k: nat)
    requires 0 < k <= |s| && KeepsEnd(s[k - 1])
    requires forall i :: k <= i < |s| ==> !KeepsEnd(s[i])
    ensures TrimJunk(s) == s[..k]
  {
    if k < |s| {
      TrimJunkCut(s[..|s| - 1], k);
      assert s[..|s| - 1][..k] == s[..k];
    } else {
      assert s[..k] == s;
    }
  }

  /** `AsciiIgnore` on bytes that are all below 0x80 maps each byte to its character. */
  lemma {:induction false} AsciiIgnoreSmall(raw: seq<Byte>, decoded: string)
    requires |raw| == |decoded|
    requires forall i :: 0 <= i < |raw| ==> raw[i] < 0x80 && decoded[i] == raw[i] as char
    ensures AsciiIgnore(raw) == decoded
  {
    if raw != [] {
      AsciiIgnoreSmall(raw[1..], decoded[1..]);
      assert decoded == [decoded[0]] + decoded[1..];
    }
  }

  /** The ASCII bytes of "ABCDEFGHIJKLMNOP", a name that fills the 16-byte field. */
  const FullName: seq<Byte> := seq(16, i requires 0 <= i < 16 => 0x41 + i)

  /** The characters of `FullName`. */
  const Letters: string := seq(16, i requires 0 <= i < 16 => (0x41 + i) as char)

  lemma LettersSpelled()
    ensures Letters == "ABCDEFGHIJKLMNOP"
    ensures Letters + "AB" == "ABCDEFGHIJKLMNOPAB"
    ensures AsciiIgnore(FullName) == Letters
    ensures FirstUnprintable(FullName) == 16
  {
    AsciiIgnoreSmall(FullName, Letters);
    FirstUnprintableAll(FullName);
  }

  /**
   * As written, the slice `data[8:28]` takes the four frame-counter bytes after
   * the 16-byte name: a full name followed by the counter 0x4241 comes out as
   * "ABCDEFGHIJKLMNOPAB".
   */
  lemma CleanedNameReadsFrameCounter(data: seq<Byte>)
    requires |data| >= HeaderSize && data[8..28] == FullName + [0x41, 0x42, 0, 0]
    ensures CleanedName(data[8..28]) == "ABCDEFGHIJKLMNOPAB"
  {
    var raw := data[8..28];
    var kept := FullName + [0x41, 0x42];
    assert raw == kept + [0, 0];
    assert FirstUnprintable(raw) == 18 by {
      FirstUnprintableAll(kept);
      FirstUnprintableAppend(kept, [0, 0]);
    }
    CleanedNameCut(raw);
    assert raw[..18] == kept;
    assert AsciiIgnore(kept) == Letters + "AB" by {
      LettersSpelled();
      AsciiIgnoreSmall(kept, Letters + "AB");
    }
    NoJunkAtEnds(Letters + "AB");
    assert CleanedName(raw) == Letters + "AB";
    LettersSpelled();
  }

  /** With the cut at `k > 0`, the name is built from the bytes before the cut. */
  lemma CleanedNameCut(raw: seq<Byte>)
    requires 0 < FirstUnprintable(raw) < |raw|
    ensures CleanedName(raw) == Tidy(raw[..FirstUnprintable(raw)])
  {
  }

  lemma {:induction false} FirstUnprintableAll(raw: seq<Byte>)
    requires forall j :: 0 <= j < |raw| ==> Printable(raw[j])
    ensures FirstUnprintable(raw) == |raw|
  {
    if raw != [] {
      FirstUnprintableAll(raw[1..]);
    }
  }

  lemma {:induction false} FirstUnprintableAppend(a: seq<Byte>, b: seq<Byte>)
    requires FirstUnprintable(a) == |a|
    ensures FirstUnprintable(a + b) == |a| + FirstUnprintable(b)
  {
    if a != [] {
      assert (a + b)[1..] == a[1..] + b;
      FirstUnprintableAppend(a[1..], b);
    } else {
      assert a + b == b;
    }
  }

  /**
   * The stream name as the VBAN header defines it: the 16-byte field at offset 8,
   * cut at its first NUL or unprintable byte wherever it is, then stripped and
   * trimmed as `clean_vban_name` does. This is the intended name; `SourceOf`
   * records the as-written `CleanedName(data[8..28])`.
   */
  function StreamName(data: seq<Byte>): (name: string)
    requires |data| >= 24
    ensures |name| <= 16
    ensures forall i :: 0 <= i < |name| ==> ' ' <= name[i] <= '~'
    ensures name == [] || KeepsEnd(name[|name| - 1])
    ensures !Printable(data[8]) ==> name == []
  {
    var field := data[8..24];
    var kept := field[..FirstUnprintable(field)];
    TrimmedPrintable(kept);
    assert field[0] == data[8];
    Tidy(kept)
  }

  /** The corrected name of the first datagram above is empty: its name field starts with NUL. */
  lemma StreamNameNulField(data: seq<Byte>)
    requires |data| >= HeaderSize && data[8..28] == ZeroField + [0x41, 0, 0, 0]
    ensures StreamName(data) == ""
  {
    assert data[8] == data[8..28][0] == 0;
  }

  /** The corrected name of the second datagram above is the sixteen letters, without the counter. */
  lemma StreamNameFullField(data: seq<Byte>)
    requires |data| >= HeaderSize && data[8..28] == FullName + [0x41, 0x42, 0, 0]
    ensures StreamName(data) == "ABCDEFGHIJKLMNOP"
  {
    assert data[8..24] == data[8..28][..16] == FullName;
    LettersSpelled();
    assert FullName[..16] == FullName;
    NoJunkAtEnds(Letters);
  }

  /** A string that starts and ends with a letter is left alone by stripping and trimming. */
  lemma NoJunkAtEnds(s: string)
    requires |s| > 0 && 'A' <= s[0] <= 'Z' && 'A' <= s[|s| - 1] <= 'Z'
    ensures TrimJunk(Text.Strip(s)) == s
  {
    assert !Text.IsSpace(s[0]) && !Text.IsSpace(s[|s| - 1]);
    assert Text.TrimStart(s) == s;
    assert Text.TrimEnd(s) == s;
    assert KeepsEnd(s[|s| - 1]);
  }

  // ---------------------------------------------------------------------------
  // The source table and the sample deque

  /** The per-IP record: `{last_seen, name, sample_rate, channels}`. */
  datatype SourceInfo = SourceInfo(lastSeen: real, name: string, sampleRate: nat, channels: nat)

  /** What one received datagram did. */
  datatype ReceiveOutcome =
    | Ignored       // too short or not "VBAN": the loop goes on
    | PayloadError  // numpy refuses a payload whose size is not a multiple of 4; the error leaves the loop
    | ResampleError // scipy's resample refuses a request for 0 samples; the error leaves the loop
    | CallbackError // the audio callback raised; nothing catches it, so the loop ends before the record update
    | Accepted

  /**
   * The record an accepted datagram writes for its sender, with the name
   * `clean_vban_name(data[8:28])` gives, frame counter included.
   */
  function SourceOf(data: seq<Byte>, now: real): (info: SourceInfo)
    requires IsVbanDatagram(data)
    ensures info.lastSeen == now
    ensures 1 <= info.channels <= 8 && info.sampleRate in Rates
    ensures |info.name| <= 20 && (info.name == [] || KeepsEnd(info.name[|info.name| - 1]))
    ensures forall c :: c in info.name ==> c < '\U{80}'
  {
    var name := CleanedName(data[8..28]);
    assert |data[8..28]| == 20;
    SourceInfo(now, name, SampleRate(RateIndex(data[4])), Channels(data[4]))
  }

  /**
   * The samples an accepted datagram appends: the float32 payload, resampled to
   * `int(n * 16000 / rate)` samples unless it is already at 16 kHz. Float
   * decoding and the resampler are external and given as parameters.
   */
  function Samples(data: seq<Byte>, decodeF32: seq<Byte> -> seq<real>,
                   resample: (seq<real>, nat) -> seq<real>): seq<real>
    requires IsVbanDatagram(data)
  {
    var raw := decodeF32(data[HeaderSize..]);
    var rate := SampleRate(RateIndex(data[4]));
    if rate != Windowing.TargetRate then resample(raw, Windowing.ResampledLength((|data| - HeaderSize) / 4, rate))
    else raw
  }

  /** The table after an eviction pass at `now`: the entries seen at most `Timeout` seconds ago. */
  function Live(sources: map<string, SourceInfo>, now: real): (live: map<string, SourceInfo>)
    ensures live.Keys <= sources.Keys
    ensures forall ip :: ip in live ==> live[ip] == sources[ip] && now - live[ip].lastSeen <= Timeout
    ensures forall ip :: ip in sources && now - sources[ip].lastSeen <= Timeout ==> ip in live
  {
    map ip | ip in sources && now - sources[ip].lastSeen <= Timeout :: sources[ip]
  }

  /** A sender refreshed at `seen` survives every eviction pass up to `seen + 5` and none after. */
  lemma LiveAfterRefresh(sources: map<string, SourceInfo>, ip: string, info: SourceInfo, now: real)
    ensures ip in Live(sources[ip := info], now) <==> now - info.lastSeen <= Timeout
    ensures forall other :: other != ip ==> (other in Live(sources[ip := info], now) <==> other in Live(sources, now))
  {
  }

  /** An eviction pass removes nothing more when repeated at the same time, and a later pass removes at least as much. */
  lemma LiveMonotone(sources: map<string, SourceInfo>, now: real, later: real)
    requires now <= later
    ensures Live(Live(sources, now), now) == Live(sources, now)
    ensures Live(sources, later).Keys <= Live(sources, now).Keys
  {
  }

  /**
   * Whether the payload of a VBAN datagram goes to the resampler with a request
   * for no samples at all: the rate is not 16 kHz and `int(n * 16000 / rate)`
   * is 0, which includes an empty payload.
   */
  predicate ResamplesToNothing(data: seq<Byte>)
    requires IsVbanDatagram(data)
  {
    var rate := SampleRate(RateIndex(data[4]));
    rate != Windowing.TargetRate && Windowing.ResampledLength((|data| - HeaderSize) / 4, rate) == 0
  }

  /**
   * What the receive loop does with a datagram: anything shorter than a header
   * or without the magic is skipped; numpy refuses a float32 payload whose size
   * is not a multiple of 4; scipy's resample refuses a request for 0 samples.
   * Neither error is caught, so both end the loop before the record update.
   */
  function OutcomeOf(data: seq<Byte>): (outcome: ReceiveOutcome)
    ensures outcome == Ignored <==> !IsVbanDatagram(data)
    ensures outcome == PayloadError <==> IsVbanDatagram(data) && (|data| - HeaderSize) % 4 != 0
    ensures outcome == ResampleError <==>
      IsVbanDatagram(data) && (|data| - HeaderSize) % 4 == 0 && ResamplesToNothing(data)
    ensures outcome != CallbackError
    ensures outcome == Accepted ==> IsVbanDatagram(data)
  {
    if !IsVbanDatagram(data) then Ignored
    else if (|data| - HeaderSize) % 4 != 0 then PayloadError
    else if ResamplesToNothing(data) then ResampleError
    else Accepted
  }

  /** One float32 sample at 48 kHz asks the resampler for `int(16000 / 48000) == 0` samples and is refused. */
  lemma OneSampleAt48kRefused(data: seq<Byte>)
    requires |data| == HeaderSize + 4 && data[..4] == Magic && data[4] == 3
    ensures OutcomeOf(data) == ResampleError
  {
    assert IsVbanDatagram(data);
    assert SampleRate(RateIndex(data[4])) == 48000;
    Windowing.ResampledLengthExamples(1);
  }

  class Detector {
    /** `self.sources`, keyed by sender IP. */
    var sources: map<string, SourceInfo>
    /** `self.buffer`, a deque bounded at `MaxBuffered` samples. */
    var buffer: seq<real>
    /** Whether `audio_callback` is set. */
    var hasAudioCallback: bool

    ghost predicate Valid()
      reads this
    {
      |buffer| <= MaxBuffered
    }

    constructor ()
      ensures Valid()
      ensures sources == map[] && buffer == [] && !hasAudioCallback
    {
      sources := map[];
      buffer := [];
      hasAudioCallback := false;
    }

    /** `set_audio_callback`: registers (or, with `false`, clears) the chunk consumer. */
    method SetAudioCallback(present: bool)
      modifies this`hasAudioCallback
      ensures hasAudioCallback == present
    {
      hasAudioCallback := present;
    }

    /**
     * One pass of the receive loop for a datagram from `ip` at time `now`. A
     * datagram that is not VBAN, or whose payload numpy or scipy refuses,
     * changes nothing. An accepted one extends the
     * deque and, once there are 16000 samples and a callback is set, empties it
     * and hands the first 16000 to the callback. When that call raises
     * (`callbackRaises`), the exception leaves the loop and the sender's record
     * is not rewritten; otherwise the record is rewritten.
     */
    method Receive(data: seq<Byte>, ip: string, now: real,
                   decodeF32: seq<Byte> -> seq<real>, resample: (seq<real>, nat) -> seq<real>,
                   callbackRaises: bool)
      returns (outcome: ReceiveOutcome, chunk: Option<seq<real>>)
      requires Valid()
      modifies this`sources, this`buffer
      ensures Valid()
      ensures OutcomeOf(data) != Accepted ==>
        outcome == OutcomeOf(data) && sources == old(sources) && buffer == old(buffer) && chunk == None
      ensures OutcomeOf(data) == Accepted ==>
        var extended := Windowing.LastN(old(buffer) + Samples(data, decodeF32, resample), MaxBuffered);
        var handed := hasAudioCallback && |extended| >= Windowing.TargetRate;
        && (if handed then chunk == Some(extended[..Windowing.TargetRate]) && buffer == []
            else chunk == None && buffer == extended)
        && (if handed && callbackRaises then outcome == CallbackError && sources == old(sources)
            else outcome == Accepted && sources == old(sources)[ip := SourceOf(data, now)])
    {
      chunk := None;
      if !(|data| >= HeaderSize && data[..4] == Magic) {
        return Ignored, None;
      }
      if (|data| - HeaderSize) % 4 != 0 {
        return PayloadError, None;
      }
      if ResamplesToNothing(data) {
        return ResampleError, None;
      }
      var samples := Samples(data, decodeF32, resample);
      buffer := Windowing.LastN(buffer + samples, MaxBuffered);
      if hasAudioCallback && |buffer| >= Windowing.TargetRate {
        chunk := Some(buffer[..Windowing.TargetRate]);
        buffer := [];
        if callbackRaises {
          return CallbackError, chunk;
        }
      }
      sources := sources[ip := SourceOf(data, now)];
      outcome := Accepted;
    }

    /**
     * The eviction pass run on a receive timeout: deletes, one by one, every
     * sender whose last packet is more than five seconds old, and returns the
     * deleted addresses (one source-callback notification each).
     */
    method EvictStale(now: real) returns (removed: set<string>)
      modifies this`sources
      ensures sources == Live(old(sources), now)
      ensures removed == old(sources).Keys - sources.Keys
      ensures forall ip :: ip in removed <==> ip in old(sources) && now - old(sources)[ip].lastSeen > Timeout
    {
      var inactive := set ip | ip in sources && now - sources[ip].lastSeen > Timeout;
      removed := {};
      ghost var before := sources;
      while inactive != {}
        invariant inactive !! removed
        invariant inactive + removed == set ip | ip in before && now - before[ip].lastSeen > Timeout
        invariant sources == map ip | ip in before && ip !in removed :: before[ip]
        decreases inactive
      {
        var ip :| ip in inactive;
        sources := map k | k in sources && k != ip :: sources[k];
        inactive := inactive - {ip};
        removed := removed + {ip};
      }
    }

    /** `get_active_sources`: a copy of the table, equal to it in content. */
    method ActiveSources() returns (snapshot: map<string, SourceInfo>)
      ensures snapshot == sources
    {
      snapshot := sources;
    }
  }
}
