/**
 * `exportToMidi`: a progression as the bytes of a Standard MIDI File 1.0
 * (format 0, one track, 480 ticks per quarter note). The track holds a Set
 * Tempo meta-event, then for each chord its note-on events followed by its
 * note-off events, every chord lasting four beats, then End of Track.
 * Delta times are variable-length quantities, 7 bits per byte, most
 * significant group first, bit 7 set on every byte but the last.
 */
module MidiExport {
  import opened Wrappers
  import opened MusicTypes

  /** Every entry fits in one byte. */
  predicate AllBytes(s: seq<int>) {
    forall k :: 0 <= k < |s| ==> 0 <= s[k] < 256
  }

  lemma AllBytesConcat(a: seq<int>, b: seq<int>)
    requires AllBytes(a) && AllBytes(b)
    ensures AllBytes(a + b)
  {
    forall k | 0 <= k < |a + b|
      ensures 0 <= (a + b)[k] < 256
    {
      if k >= |a| { assert (a + b)[k] == b[k - |a|]; }
    }
  }

  // ---------------------------------------------------------------- VLQ

  /** The groups above the lowest, each with bit 7 set, the most significant first. */
  function VlqHigh(t: nat): (r: seq<int>)
    ensures forall k :: 0 <= k < |r| ==> 128 <= r[k] < 256
    ensures t == 0 <==> r == []
    ensures t > 0 ==> r[0] > 128
  {
    if t == 0 then [] else VlqHigh(t / 128) + [t % 128 + 128]
  }

  /**
   * `variableLengthQuantity(value)`: one byte per 7-bit group. The last byte
   * alone has bit 7 clear, and no leading group is an empty 0x80.
   */
  function Vlq(v: nat): (r: seq<int>)
    ensures |r| > 0 && AllBytes(r)
    ensures forall k :: 0 <= k < |r| - 1 ==> r[k] >= 128
    ensures r[|r| - 1] < 128
    ensures r[0] != 128
  {
    if v == 0 then [0] else VlqHigh(v / 128) + [v % 128]
  }

  /**
   * A reader of one quantity from the front of `s`, as the MIDI file format
   * defines it: `acc` holds the groups read so far; it answers the value
   * and the bytes after it, or `None` when `s` ends inside the quantity.
   */
  function ReadVlqFrom(s: seq<int>, acc: int): Option<(int, seq<int>)>
    decreases |s|
  {
    if s == [] then None
    else if s[0] >= 128 then ReadVlqFrom(s[1..], acc * 128 + (s[0] - 128))
    else Some((acc * 128 + s[0], s[1..]))
  }

  function ReadVlq(s: seq<int>): Option<(int, seq<int>)> {
    ReadVlqFrom(s, 0)
  }

  lemma {:induction false} ReadVlqHigh(t: nat, tail: seq<int>)
    ensures ReadVlqFrom(VlqHigh(t) + tail, 0) == ReadVlqFrom(tail, t)
    decreases t
  {
    if t > 0 {
      var b := t % 128 + 128;
      assert VlqHigh(t) == VlqHigh(t / 128) + [b];
      assert VlqHigh(t) + tail == VlqHigh(t / 128) + ([b] + tail);
      ReadVlqHigh(t / 128, [b] + tail);
      assert ([b] + tail)[0] == b && ([b] + tail)[1..] == tail;
      assert ReadVlqFrom([b] + tail, t / 128) == ReadVlqFrom(tail, (t / 128) * 128 + (b - 128));
      assert (t / 128) * 128 + (b - 128) == t;
    } else {
      assert VlqHigh(t) + tail == tail;
    }
  }

  /** A quantity reads back as its value, leaving whatever follows it: encodings are self-delimiting. */
  lemma VlqRoundTrip(v: nat, rest: seq<int>)
    ensures ReadVlq(Vlq(v) + rest) == Some((v, rest))
  {
    if v > 0 {
      assert VlqHigh(v / 128) + [v % 128] + rest == VlqHigh(v / 128) + ([v % 128] + rest);
      ReadVlqHigh(v / 128, [v % 128] + rest);
      assert ([v % 128] + rest)[1..] == rest;
    }
  }

  function Pow128(k: nat): nat {
    if k == 0 then 1 else 128 * Pow128(k - 1)
  }

  lemma {:induction false} VlqHighShort(t: nat, k: nat)
    requires t < Pow128(k)
    ensures |VlqHigh(t)| <= k
  {
    if t > 0 {
      assert k > 0;
      VlqHighShort(t / 128, k - 1);
    }
  }

  /** Values below 2^28, the file format's limit, take at most four bytes. */
  lemma VlqAtMostFourBytes(v: nat)
    requires v < 0x1000_0000
    ensures |Vlq(v)| <= 4
  {
    assert Pow128(3) == 0x20_0000;
    VlqHighShort(v / 128, 3);
  }

  /**
   * `variableLengthQuantity`: the low group first, then `temp >>= 7` and
   * one more group with bit 7 set (`| 0x80`) in front while `temp > 0`.
   * Below 2^31, `& 0x7f` is `% 128` and `>>= 7` is `/ 128`.
   */
  method VariableLengthQuantity(value: int) returns (result: seq<int>)
    requires 0 <= value < 0x8000_0000
    ensures result == Vlq(value)
  {
    if value == 0 {
      return [0];
    }
    result := [];
    var temp := value;
    result := [temp % 128] + result;
    temp := temp / 128;
    while temp > 0
      invariant temp >= 0
      invariant VlqHigh(temp) + result == Vlq(value)
      decreases temp
    {
      var b := temp % 128 + 128;
      assert VlqHigh(temp) + result == VlqHigh(temp / 128) + ([b] + result);
      result := [b] + result;
      temp := temp / 128;
    }
  }

  // ---------------------------------------------------------------- the file

  const TicksPerBeat := 480
  const BeatsPerChord := 4
  /** How long each chord sounds, in ticks. */
  const ChordTicks := TicksPerBeat * BeatsPerChord

  /** "MThd", length 6, format 0, one track, 480 ticks per quarter note. */
  const HeaderChunk: seq<int> := [0x4D, 0x54, 0x68, 0x64, 0x00, 0x00, 0x00, 0x06, 0x00, 0x00, 0x00, 0x01, 0x01, 0xE0]
  /** "MTrk". */
  const TrackMagic: seq<int> := [0x4D, 0x54, 0x72, 0x6B]
  const EndOfTrack: seq<int> := [0x00, 0xFF, 0x2F, 0x00]

  /** The value of bytes read most significant first. */
  function BigEndian(s: seq<int>): int {
    if s == [] then 0 else BigEndian(s[..|s| - 1]) * 256 + s[|s| - 1]
  }

  /**
   * `Math.round(60000000 / tempo)`: the whole number within one half of
   * 60000000 / tempo, a half rounded up; stated multiplied through by `2 * tempo`.
   */
  function MicrosecondsPerQuarter(tempo: int): (us: nat)
    requires tempo > 0
    ensures 2 * tempo * us - tempo <= 2 * 60000000 < 2 * tempo * us + tempo
  {
    var us := (120000000 + tempo) / (2 * tempo);
    assert 120000000 + tempo == 2 * tempo * us + (120000000 + tempo) % (2 * tempo);
    us
  }

  /** The Set Tempo meta-event: `FF 51 03` and the tempo in three bytes (`>> 16`, `>> 8`, `& 0xff`). */
  function TempoEvent(tempo: int): (r: seq<int>)
    requires tempo > 0
    ensures |r| == 7 && AllBytes(r)
  {
    var us := MicrosecondsPerQuarter(tempo);
    [0x00, 0xFF, 0x51, 0x03, (us / 0x1_0000) % 256, (us / 0x100) % 256, us % 256]
  }

  /** One channel-0 note event: its delta time, the status byte, the note and the velocity. */
  function NoteEvent(delta: nat, status: int, note: int, velocity: int): seq<int> {
    Vlq(delta) + [status, note, velocity]
  }

  /** One `forEach` over a chord's notes: only the first event carries `firstDelta`, the rest 0. */
  function NoteEvents(notes: seq<int>, firstDelta: nat, status: int, velocity: int): seq<int> {
    if notes == [] then []
    else
      NoteEvents(notes[..|notes| - 1], firstDelta, status, velocity)
      + NoteEvent(if |notes| == 1 then firstDelta else 0, status, notes[|notes| - 1], velocity)
  }

  /** A chord: its note-ons (after 0 ticks for the first chord, 1920 otherwise), then its note-offs 1920 ticks later. */
  function ChordEvents(index: nat, midi: seq<int>): seq<int> {
    NoteEvents(midi, if index == 0 then 0 else ChordTicks, 0x90, 0x7F) + NoteEvents(midi, ChordTicks, 0x80, 0x00)
  }

  function ChordsEvents(chords: seq<Chord>): seq<int> {
    if chords == [] then []
    else ChordsEvents(chords[..|chords| - 1]) + ChordEvents(|chords| - 1, chords[|chords| - 1].midi)
  }

  /** `trackData`: Set Tempo, the chords, End of Track. */
  function TrackData(p: ChordProgression): seq<int>
    requires p.tempo > 0
  {
    TempoEvent(p.tempo) + ChordsEvents(p.chords) + EndOfTrack
  }

  /** The track length as four bytes: `>> 24`, `>> 16`, `>> 8`, `& 0xff`. */
  function LengthField(n: nat): (r: seq<int>)
    ensures |r| == 4 && AllBytes(r)
  {
    [(n / 0x100_0000) % 256, (n / 0x1_0000) % 256, (n / 0x100) % 256, n % 256]
  }

  /** `new Uint8Array(...)`: each number taken modulo 256. */
  function Uint8(s: seq<int>): (r: seq<int>)
    ensures |r| == |s| && AllBytes(r)
    ensures AllBytes(s) ==> r == s
  {
    seq(|s|, k requires 0 <= k < |s| => s[k] % 256)
  }

  /** The whole file. */
  function MidiBytes(p: ChordProgression): seq<int>
    requires p.tempo > 0
  {
    var data := TrackData(p);
    Uint8(HeaderChunk + TrackMagic + LengthField(|data|) + data)
  }

  /** The MIDI note numbers 0 to 127 in every chord. */
  predicate NotesAreMidi(chords: seq<Chord>) {
    forall i, k :: 0 <= i < |chords| && 0 <= k < |chords[i].midi| ==> 0 <= chords[i].midi[k] < 128
  }

  // ---------------------------------------------------------------- layout

  lemma {:induction false} NoteEventsBytes(notes: seq<int>, firstDelta: nat, status: int, velocity: int)
    requires 0 <= status < 256 && 0 <= velocity < 256 && AllBytes(notes)
    ensures AllBytes(NoteEvents(notes, firstDelta, status, velocity))
  {
    if notes != [] {
      var init := notes[..|notes| - 1];
      assert AllBytes(init);
      NoteEventsBytes(init, firstDelta, status, velocity);
      var d := if |notes| == 1 then firstDelta else 0;
      AllBytesConcat(Vlq(d), [status, notes[|notes| - 1], velocity]);
      AllBytesConcat(NoteEvents(init, firstDelta, status, velocity), NoteEvent(d, status, notes[|notes| - 1], velocity));
    }
  }

  lemma {:induction false} ChordsEventsBytes(chords: seq<Chord>)
    requires NotesAreMidi(chords)
    ensures AllBytes(ChordsEvents(chords))
  {
    if chords != [] {
      var init := chords[..|chords| - 1];
      assert NotesAreMidi(init) by {
        forall i, k | 0 <= i < |init| && 0 <= k < |init[i].midi|
          ensures 0 <= init[i].midi[k] < 128
        {
          assert init[i] == chords[i];
        }
      }
      ChordsEventsBytes(init);
      var last := chords[|chords| - 1];
      assert AllBytes(last.midi) by {
        forall k | 0 <= k < |last.midi| ensures 0 <= last.midi[k] < 256 {
          assert 0 <= chords[|chords| - 1].midi[k] < 128;
        }
      }
      NoteEventsBytes(last.midi, if |chords| - 1 == 0 then 0 else ChordTicks, 0x90, 0x7F);
      NoteEventsBytes(last.midi, ChordTicks, 0x80, 0x00);
      AllBytesConcat(NoteEvents(last.midi, if |chords| - 1 == 0 then 0 else ChordTicks, 0x90, 0x7F), NoteEvents(last.midi, ChordTicks, 0x80, 0x00));
      AllBytesConcat(ChordsEvents(init), ChordEvents(|chords| - 1, last.midi));
    }
  }

  /** Dropping two low bytes is dropping one low byte twice. */
  lemma DivByteTwice(x: nat)
    ensures x / 0x1_0000 == (x / 0x100) / 0x100
  {
    var q := x / 0x100;
    var q2 := q / 0x100;
    assert x == 0x1_0000 * q2 + (0x100 * (q % 0x100) + x % 0x100);
  }

  /** Three bytes `x / 2^16 % 256`, `x / 2^8 % 256`, `x % 256` read back as `x` below 2^24. */
  lemma ThreeBytes(x: nat)
    requires x < 0x100_0000
    ensures BigEndian([(x / 0x1_0000) % 256, (x / 0x100) % 256, x % 256]) == x
  {
    var r := [(x / 0x1_0000) % 256, (x / 0x100) % 256, x % 256];
    DivByteTwice(x);
    assert r[..2][..1][..0] == [];
    assert BigEndian(r[..1]) == (x / 0x100) / 0x100;
    assert BigEndian(r[..2]) == x / 0x100;
  }

  /** Four bytes written by `LengthField` read back as the length, for any length below 2^32. */
  lemma LengthFieldRoundTrip(n: nat)
    requires n < 0x1_0000_0000
    ensures BigEndian(LengthField(n)) == n
  {
    var r := LengthField(n);
    var m := n / 0x100;
    DivByteTwice(n);
    DivByteTwice(m);
    assert n / 0x100_0000 == m / 0x1_0000 by {
      var c := m / 0x1_0000;
      assert n == 0x100_0000 * c + (0x100 * (m % 0x1_0000) + n % 0x100);
    }
    ThreeBytes(m);
    assert r[..3] == [(m / 0x1_0000) % 256, (m / 0x100) % 256, m % 256];
  }

  /** The three tempo bytes read back as the microseconds per quarter note once the tempo is at least 4. */
  lemma TempoBytesRoundTrip(tempo: int)
    requires tempo >= 4
    ensures MicrosecondsPerQuarter(tempo) <= 15000000
    ensures BigEndian(TempoEvent(tempo)[4..]) == MicrosecondsPerQuarter(tempo)
  {
    var us := MicrosecondsPerQuarter(tempo);
    if us > 0 {
      assert tempo * (2 * us - 1) <= 120000000;
      MulMonotone(4, tempo, 2 * us - 1);
    }
    ThreeBytes(us);
    assert TempoEvent(tempo)[4..] == [(us / 0x1_0000) % 256, (us / 0x100) % 256, us % 256];
  }

  lemma MulMonotone(a: nat, b: nat, c: nat)
    requires a <= b
    ensures a * c <= b * c
  {
  }

  /** The header chunk's fields: length 6, format 0, one track, 480 ticks per quarter note. */
  lemma HeaderFields()
    ensures HeaderChunk[..4] == [0x4D, 0x54, 0x68, 0x64]
    ensures BigEndian(HeaderChunk[4..8]) == 6 && BigEndian(HeaderChunk[8..10]) == 0
    ensures BigEndian(HeaderChunk[10..12]) == 1 && BigEndian(HeaderChunk[12..14]) == TicksPerBeat
  {
    assert HeaderChunk[4..8] == [0, 0, 0, 6];
    assert [0, 0, 0, 6][..3] == [0, 0, 0] && [0, 0, 0][..2] == [0, 0] && [0, 0][..1] == [0] && [0][..0] == [];
    assert HeaderChunk[8..10] == [0, 0] && HeaderChunk[10..12] == [0, 1] && HeaderChunk[12..14] == [1, 0xE0];
    assert [0, 1][..1] == [0] && [1, 0xE0][..1] == [1] && [1][..0] == [];
  }

  /** With every note in the MIDI range, every number the exporter pushes is a byte. */
  lemma TrackDataBytes(p: ChordProgression)
    requires p.tempo > 0 && NotesAreMidi(p.chords)
    ensures AllBytes(TrackData(p))
  {
    ChordsEventsBytes(p.chords);
    AllBytesConcat(TempoEvent(p.tempo), ChordsEvents(p.chords));
    AllBytesConcat(TempoEvent(p.tempo) + ChordsEvents(p.chords), EndOfTrack);
  }

  /**
   * The file is the fixed header chunk (format 0, one track, 480 ticks per
   * quarter note), "MTrk", a four-byte length, then exactly that many bytes
   * of track data; with notes in the MIDI range every byte is the number the
   * exporter pushed.
   */
  lemma MidiFileLayout(p: ChordProgression)
    requires p.tempo > 0 && NotesAreMidi(p.chords)
    ensures var r := MidiBytes(p);
      |r| == 22 + |TrackData(p)| &&
      r[..14] == HeaderChunk && r[14..18] == TrackMagic && r[22..] == TrackData(p) &&
      (|TrackData(p)| < 0x1_0000_0000 ==> BigEndian(r[18..22]) == |r| - 22)
  {
    TrackDataBytes(p);
    FileLayout(TrackData(p));
  }

  lemma FileLayout(data: seq<int>)
    requires AllBytes(data)
    ensures var r := Uint8(HeaderChunk + TrackMagic + LengthField(|data|) + data);
      |r| == 22 + |data| &&
      r[..14] == HeaderChunk && r[14..18] == TrackMagic && r[22..] == data &&
      (|data| < 0x1_0000_0000 ==> BigEndian(r[18..22]) == |r| - 22)
  {
    var fixed := HeaderChunk + TrackMagic + LengthField(|data|);
    AllBytesConcat(HeaderChunk, TrackMagic);
    AllBytesConcat(HeaderChunk + TrackMagic, LengthField(|data|));
    AllBytesConcat(fixed, data);
    var r := fixed + data;
    assert r[18..22] == LengthField(|data|);
    if |data| < 0x1_0000_0000 { LengthFieldRoundTrip(|data|); }
  }

  /** The track data opens with Set Tempo carrying the rounded tempo, and closes with End of Track. */
  lemma TrackDataLayout(p: ChordProgression)
    requires p.tempo >= 4
    ensures var data := TrackData(p);
      |data| == 11 + |ChordsEvents(p.chords)| &&
      data[..4] == [0x00, 0xFF, 0x51, 0x03] &&
      BigEndian(data[4..7]) == MicrosecondsPerQuarter(p.tempo) &&
      data[7..|data| - 4] == ChordsEvents(p.chords) &&
      data[|data| - 4..] == EndOfTrack
  {
    TempoBytesRoundTrip(p.tempo);
    var data := TrackData(p);
    var t := TempoEvent(p.tempo);
    assert data == t + (ChordsEvents(p.chords) + EndOfTrack);
    assert data[4..7] == t[4..];
  }

  /** 480 ticks (a beat) and 1920 ticks (a chord) as quantities. */
  lemma TickQuantities()
    ensures Vlq(TicksPerBeat) == [0x83, 0x60]
    ensures Vlq(ChordTicks) == [0x8F, 0x00]
    ensures |Vlq(0)| == 1
  {
    assert VlqHigh(3) == [0x83];
    assert VlqHigh(15) == [0x8F];
  }

  /**
   * The first event of one `forEach`, with its delta, takes
   * `|Vlq(firstDelta)| + 3` bytes, and every later one four.
   */
  lemma {:induction false} NoteEventsHead(notes: seq<int>, firstDelta: nat, status: int, velocity: int)
    requires |notes| > 0
    ensures var e := NoteEvents(notes, firstDelta, status, velocity);
      var head := |Vlq(firstDelta)| + 3;
      |e| == head + 4 * (|notes| - 1) && e[..head] == Vlq(firstDelta) + [status, notes[0], velocity]
  {
    var init := notes[..|notes| - 1];
    var e := NoteEvents(notes, firstDelta, status, velocity);
    var head := |Vlq(firstDelta)| + 3;
    if |notes| == 1 {
      assert init == [] && NoteEvents(init, firstDelta, status, velocity) == [];
      assert e == [] + NoteEvent(firstDelta, status, notes[0], velocity);
    } else {
      NoteEventsHead(init, firstDelta, status, velocity);
      var ei := NoteEvents(init, firstDelta, status, velocity);
      assert e == ei + [0, status, notes[|notes| - 1], velocity];
      assert e[..head] == ei[..head];
    }
  }

  /** Each event after the first in one `forEach` is `00`, the status, the note and the velocity. */
  lemma {:induction false} NoteEventsAt(notes: seq<int>, firstDelta: nat, status: int, velocity: int, k: nat)
    requires 0 < k < |notes|
    ensures var e := NoteEvents(notes, firstDelta, status, velocity);
      var head := |Vlq(firstDelta)| + 3;
      |e| == head + 4 * (|notes| - 1) && e[head + 4 * (k - 1)..head + 4 * k] == [0, status, notes[k], velocity]
  {
    var init := notes[..|notes| - 1];
    var e := NoteEvents(notes, firstDelta, status, velocity);
    var ei := NoteEvents(init, firstDelta, status, velocity);
    var head := |Vlq(firstDelta)| + 3;
    NoteEventsHead(init, firstDelta, status, velocity);
    NoteEventsHead(notes, firstDelta, status, velocity);
    assert e == ei + [0, status, notes[|notes| - 1], velocity];
    if k < |notes| - 1 {
      NoteEventsAt(init, firstDelta, status, velocity, k);
      assert e[head + 4 * (k - 1)..head + 4 * k] == ei[head + 4 * (k - 1)..head + 4 * k];
    }
  }

  /** A chord of `n` notes takes 8n + 1 bytes when it is the first and 8n + 2 otherwise. */
  lemma ChordEventsSize(index: nat, midi: seq<int>)
    requires |midi| > 0
    ensures |ChordEvents(index, midi)| == 8 * |midi| + (if index == 0 then 1 else 2)
  {
    TickQuantities();
    NoteEventsHead(midi, if index == 0 then 0 else ChordTicks, 0x90, 0x7F);
    NoteEventsHead(midi, ChordTicks, 0x80, 0x00);
  }

  function TotalNotes(chords: seq<Chord>): nat {
    if chords == [] then 0 else TotalNotes(chords[..|chords| - 1]) + |chords[|chords| - 1].midi|
  }

  /** The chord events of a progression whose chords all sound: 8 bytes a note, 2 a chord, less 1 for the first. */
  lemma {:induction false} ChordsEventsSize(chords: seq<Chord>)
    requires forall i :: 0 <= i < |chords| ==> |chords[i].midi| > 0
    ensures |ChordsEvents(chords)| == if chords == [] then 0 else 8 * TotalNotes(chords) + 2 * |chords| - 1
  {
    if chords != [] {
      var init := chords[..|chords| - 1];
      ChordsEventsSize(init);
      ChordEventsSize(|chords| - 1, chords[|chords| - 1].midi);
    }
  }

  // ---------------------------------------------------------------- the exporter

  /** One `chord.midi.forEach`: appends an event per note, the first with `firstDelta`. */
  method PushNoteEvents(trackData: seq<int>, midi: seq<int>, firstDelta: nat, status: int, velocity: int) returns (out: seq<int>)
    requires firstDelta < 0x8000_0000
    ensures out == trackData + NoteEvents(midi, firstDelta, status, velocity)
  {
    out := trackData;
    var n := 0;
    while n < |midi|
      invariant 0 <= n <= |midi|
      invariant out == trackData + NoteEvents(midi[..n], firstDelta, status, velocity)
    {
      assert midi[..n + 1][..n] == midi[..n];
      var delta := if n == 0 then firstDelta else 0;
      var q := VariableLengthQuantity(delta);
      assert NoteEvents(midi[..n + 1], firstDelta, status, velocity)
        == NoteEvents(midi[..n], firstDelta, status, velocity) + NoteEvent(delta, status, midi[n], velocity);
      out := out + (q + [status, midi[n], velocity]);
      n := n + 1;
    }
    assert midi[..n] == midi;
  }

  /** One chord's two `forEach` loops: its note-ons, then its note-offs. */
  method PushChordEvents(trackData: seq<int>, chordIndex: nat, midi: seq<int>) returns (out: seq<int>)
    ensures out == trackData + ChordEvents(chordIndex, midi)
  {
    var deltaTime := if chordIndex == 0 then 0 else TicksPerBeat * BeatsPerChord;
    out := PushNoteEvents(trackData, midi, deltaTime, 0x90, 0x7F);
    out := PushNoteEvents(out, midi, TicksPerBeat * BeatsPerChord, 0x80, 0x00);
    ConcatAssoc(trackData, NoteEvents(midi, deltaTime, 0x90, 0x7F), NoteEvents(midi, ChordTicks, 0x80, 0x00));
  }

  /** The `trackData` array: Set Tempo, each chord's events, End of Track. */
  method BuildTrackData(p: ChordProgression) returns (trackData: seq<int>)
    requires p.tempo > 0
    ensures trackData == TrackData(p)
  {
    ghost var tempoEvent := TempoEvent(p.tempo);
    trackData := [];
    var us := MicrosecondsPerQuarter(p.tempo);
    trackData := trackData + [0x00, 0xFF, 0x51, 0x03, (us / 0x1_0000) % 256, (us / 0x100) % 256, us % 256];
    assert p.chords[..0] == [] && ChordsEvents([]) == [];
    assert trackData == tempoEvent + ChordsEvents(p.chords[..0]);
    var c := 0;
    while c < |p.chords|
      invariant 0 <= c <= |p.chords|
      invariant trackData == tempoEvent + ChordsEvents(p.chords[..c])
    {
      ghost var before := trackData;
      trackData := PushChordEvents(trackData, c, p.chords[c].midi);
      TrackPrefixStep(tempoEvent, p.chords, c, before, trackData);
      c := c + 1;
    }
    assert p.chords[..c] == p.chords;
    trackData := trackData + EndOfTrack;
  }

  lemma TrackPrefixStep(head: seq<int>, chords: seq<Chord>, c: nat, before: seq<int>, after: seq<int>)
    requires c < |chords|
    requires before == head + ChordsEvents(chords[..c])
    requires after == before + ChordEvents(c, chords[c].midi)
    ensures after == head + ChordsEvents(chords[..c + 1])
  {
    ChordsEventsStep(chords, c);
    ConcatAssoc(head, ChordsEvents(chords[..c]), ChordEvents(c, chords[c].midi));
  }

  lemma ChordsEventsStep(chords: seq<Chord>, c: nat)
    requires c < |chords|
    ensures ChordsEvents(chords[..c + 1]) == ChordsEvents(chords[..c]) + ChordEvents(c, chords[c].midi)
  {
    assert chords[..c + 1][..c] == chords[..c];
  }

  lemma ConcatAssoc(a: seq<int>, b: seq<int>, c: seq<int>)
    ensures (a + b) + c == a + (b + c)
  {
  }

  /** `exportToMidi`, up to the bytes of the returned `Blob`. */
  method ExportToMidi(p: ChordProgression) returns (midiData: seq<int>)
    requires p.tempo > 0
    ensures midiData == MidiBytes(p)
  {
    var header := HeaderChunk;
    var tracks := TrackMagic;
    var trackData := BuildTrackData(p);
    var trackLength := |trackData|;
    tracks := tracks + [(trackLength / 0x100_0000) % 256, (trackLength / 0x1_0000) % 256, (trackLength / 0x100) % 256, trackLength % 256];
    tracks := tracks + trackData;
    assert header + tracks == HeaderChunk + TrackMagic + LengthField(trackLength) + trackData;
    midiData := Uint8(header + tracks);
  }
}
