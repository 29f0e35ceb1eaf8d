/** The device lists the two programs offer: the receiver lists output
    devices, the sender lists system-sound ("stereo mix") capture devices
    first and then the other input devices.  A device list is the sequence
    of records `sd.query_devices()` returns; list positions are the device
    indices. */
module Devices {
  import opened Wrappers

  /** The fields of one `sd.query_devices()` record that the filters read. */
  datatype Device = Device(name: string, maxInputChannels: int, maxOutputChannels: int, hostApi: nat)

  function Digit(d: nat): (c: char)
    requires d < 10
    ensures '0' <= c <= '9'
  {
    (48 + d) as char
  }

  /** Decimal rendering of a device index, as `f"{i}"` writes it. */
  function NatToString(n: nat): (s: string)
    ensures 1 <= |s|
    ensures forall k :: 0 <= k < |s| ==> '0' <= s[k] <= '9'
  {
    if n < 10 then [Digit(n)] else NatToString(n / 10) + [Digit(n % 10)]
  }

  /** `f"{i}: {device['name']}"` */
  function Label(i: nat, name: string): string {
    NatToString(i) + ": " + name
  }

  const SystemSoundTag: string := " 🔊 СИСТЕМНЫЙ ЗВУК"

  /** `f"{i}: {device['name']} 🔊 СИСТЕМНЫЙ ЗВУК"` */
  function StereoMixLabel(i: nat, name: string): string {
    Label(i, name) + SystemSoundTag
  }

  /** `f"{i}: {device['name']} ({hostapi_name})"` */
  function OutputLabel(i: nat, name: string, hostApiName: string): string {
    Label(i, name) + " (" + hostApiName + ")"
  }

  const StereoMixKeywords: seq<string> := [
    "stereo mix", "what you hear", "waveout mix",
    "mix stereo", "system sounds", "voicemeeter", "cable"
  ]

  function LowerChar(c: char): char {
    if 'A' <= c <= 'Z' then (c as int + 32) as char else c
  }

  /** `str.lower()` restricted to the ASCII letters. */
  function LowerAscii(s: string): (r: string)
    ensures |r| == |s|
  {
    seq(|s|, i requires 0 <= i < |s| => LowerChar(s[i]))
  }

  predicate OccursAt(s: string, sub: string, i: nat) {
    i + |sub| <= |s| && s[i..i + |sub|] == sub
  }

  /** Python's `sub in s` on strings. */
  predicate Contains(s: string, sub: string) {
    exists i | 0 <= i <= |s| - |sub| :: OccursAt(s, sub, i)
  }

  /** `any(keyword in device_name_lower for keyword in stereo_mix_keywords)` */
  predicate MentionsSystemCapture(name: string) {
    exists k | 0 <= k < |StereoMixKeywords| :: Contains(LowerAscii(name), StereoMixKeywords[k])
  }

  /** A capture device (`max_input_channels > 0`) that records the system
      output rather than a microphone. */
  predicate IsStereoMix(d: Device) {
    d.maxInputChannels > 0 && MentionsSystemCapture(d.name)
  }

  /** The indices, from `from` on and in increasing order, of the devices
      that satisfy `p`: the `for i, device in enumerate(device_list): if ...`
      scans of the source. */
  function Select(devices: seq<Device>, p: (nat, Device) -> bool, from: nat): (r: seq<nat>)
    ensures forall k :: 0 <= k < |r| ==> from <= r[k] < |devices| && p(r[k], devices[r[k]])
    ensures forall k, l :: 0 <= k < l < |r| ==> r[k] < r[l]
    ensures forall i :: from <= i < |devices| && p(i, devices[i]) ==> i in r
    decreases |devices| - from
  {
    if from >= |devices| then []
    else (if p(from, devices[from]) then [from] else []) + Select(devices, p, from + 1)
  }

  function StereoMixIndices(devices: seq<Device>): seq<nat> {
    Select(devices, (i: nat, d: Device) => IsStereoMix(d), 0)
  }

  /** `find_stereo_mix_devices`: one tagged entry per stereo-mix device, in
      index order. */
  function FindStereoMixDevices(devices: seq<Device>): (r: seq<string>)
    ensures |r| == |StereoMixIndices(devices)|
  {
    var idx := StereoMixIndices(devices);
    seq(|idx|, k requires 0 <= k < |idx| => StereoMixLabel(idx[k], devices[idx[k]].name))
  }

  /** Untagged `"i: name"` entries for the given device indices. */
  function PlainLabels(devices: seq<Device>, idx: seq<nat>): (r: seq<string>)
    requires forall k :: 0 <= k < |idx| ==> idx[k] < |devices|
    ensures |r| == |idx|
  {
    seq(|idx|, k requires 0 <= k < |idx| => Label(idx[k], devices[idx[k]].name))
  }

  /** The input devices listed as microphones: those with input channels
      that are not already listed as a stereo mix, matched by device index. */
  function MicrophoneIndices(devices: seq<Device>): seq<nat> {
    Select(devices, (i: nat, d: Device) => d.maxInputChannels > 0 && !IsStereoMix(d), 0)
  }

  /** The microphone filter as the source writes it: an input device is
      skipped when its `"i: name"` entry occurs as a substring anywhere in any
      stereo-mix entry. */
  function MicrophoneIndicesAsWritten(devices: seq<Device>): (r: seq<nat>)
    ensures forall k :: 0 <= k < |r| ==> r[k] < |devices| && devices[r[k]].maxInputChannels > 0
    ensures forall k, l :: 0 <= k < l < |r| ==> r[k] < r[l]
    ensures forall i :: 0 <= i < |devices| ==>
              (i in r <==> devices[i].maxInputChannels > 0 && !MatchesStereoMixEntry(devices, i, devices[i]))
  {
    Select(devices, (i: nat, d: Device) => d.maxInputChannels > 0 && !MatchesStereoMixEntry(devices, i, d), 0)
  }

  /** The `"i: name"` entry of device `d` at index `i` occurs inside some
      stereo-mix entry of `devices`. */
  predicate MatchesStereoMixEntry(devices: seq<Device>, i: nat, d: Device) {
    var stereo := FindStereoMixDevices(devices);
    exists k | 0 <= k < |stereo| :: Contains(stereo[k], Label(i, d.name))
  }

  /** The list a `refresh_devices` call puts in the device selector, and the
      selector's value afterwards ("" when nothing is selected). */
  datatype DeviceList = DeviceList(entries: seq<string>, selected: string)

  /** The selector `refresh_devices` fills: the stereo-mix entries, then one
      untagged entry per index of `mic`; the first stereo-mix entry is
      preselected if there is one, else the first entry, else the selection
      is left as it was. */
  function InputList(devices: seq<Device>, mic: seq<nat>, current: string): (r: DeviceList)
    requires forall k :: 0 <= k < |mic| ==> mic[k] < |devices|
    ensures var st := StereoMixIndices(devices);
      && |r.entries| == |st| + |mic|
      && (forall k :: 0 <= k < |st| ==> r.entries[k] == StereoMixLabel(st[k], devices[st[k]].name))
      && (forall k :: 0 <= k < |mic| ==> r.entries[|st| + k] == Label(mic[k], devices[mic[k]].name))
    ensures r.entries != [] ==> r.selected == r.entries[0]
    ensures r.entries == [] ==> r.selected == current
  {
    var stereo := FindStereoMixDevices(devices);
    var entries := stereo + PlainLabels(devices, mic);
    DeviceList(entries, if stereo != [] then stereo[0] else if entries != [] then entries[0] else current)
  }

  /** The sender's `refresh_devices` with microphones matched by device index:
      every device with input channels is offered, under the stereo-mix tag
      when its name mentions system capture and untagged otherwise, and
      nothing else is listed. */
  function RefreshInputDevices(devices: seq<Device>, current: string): (r: DeviceList)
    ensures |r.entries| == |StereoMixIndices(devices)| + |MicrophoneIndices(devices)|
    ensures forall i :: 0 <= i < |devices| && IsStereoMix(devices[i]) ==>
              StereoMixLabel(i, devices[i].name) in r.entries
    ensures forall i :: 0 <= i < |devices| && devices[i].maxInputChannels > 0 && !IsStereoMix(devices[i]) ==>
              Label(i, devices[i].name) in r.entries
    ensures r.entries != [] ==> r.selected == r.entries[0]
    ensures r.entries == [] ==> r.selected == current
  {
    InputEntriesComplete(devices, current);
    InputList(devices, MicrophoneIndices(devices), current)
  }

  /** Every input device has its entry in the index-matched list. */
  lemma InputEntriesComplete(devices: seq<Device>, current: string)
    ensures var r := InputList(devices, MicrophoneIndices(devices), current);
      forall i :: 0 <= i < |devices| && IsStereoMix(devices[i]) ==>
              StereoMixLabel(i, devices[i].name) in r.entries
    ensures var r := InputList(devices, MicrophoneIndices(devices), current);
      forall i :: 0 <= i < |devices| && devices[i].maxInputChannels > 0 && !IsStereoMix(devices[i]) ==>
              Label(i, devices[i].name) in r.entries
  {
    var r := InputList(devices, MicrophoneIndices(devices), current);
    forall i | 0 <= i < |devices| && IsStereoMix(devices[i])
      ensures StereoMixLabel(i, devices[i].name) in r.entries
    {
      StereoMixEntryListed(devices, MicrophoneIndices(devices), current, i);
    }
    forall i | 0 <= i < |devices| && devices[i].maxInputChannels > 0 && !IsStereoMix(devices[i])
      ensures Label(i, devices[i].name) in r.entries
    {
      MicrophoneEntryListed(devices, MicrophoneIndices(devices), current, i);
    }
  }

  /** A stereo-mix device's tagged entry is in the selector. */
  lemma StereoMixEntryListed(devices: seq<Device>, mic: seq<nat>, current: string, i: nat)
    requires forall k :: 0 <= k < |mic| ==> mic[k] < |devices|
    requires i < |devices| && IsStereoMix(devices[i])
    ensures StereoMixLabel(i, devices[i].name) in InputList(devices, mic, current).entries
  {
    var st, r := StereoMixIndices(devices), InputList(devices, mic, current);
    var k :| 0 <= k < |st| && st[k] == i;
    assert r.entries[k] == StereoMixLabel(i, devices[i].name);
  }

  /** A microphone index's untagged entry is in the selector. */
  lemma MicrophoneEntryListed(devices: seq<Device>, mic: seq<nat>, current: string, i: nat)
    requires forall k :: 0 <= k < |mic| ==> mic[k] < |devices|
    requires i in mic
    ensures Label(i, devices[i].name) in InputList(devices, mic, current).entries
  {
    var st, r := StereoMixIndices(devices), InputList(devices, mic, current);
    var k :| 0 <= k < |mic| && mic[k] == i;
    assert r.entries[|st| + k] == Label(i, devices[i].name);
  }

  /** The sender's `refresh_devices` as the source writes it, with the
      substring filter for microphones: it lists nothing the index-based list
      does not. */
  function RefreshInputDevicesAsWritten(devices: seq<Device>, current: string): (r: DeviceList)
    ensures |r.entries| == |StereoMixIndices(devices)| + |MicrophoneIndicesAsWritten(devices)|
    ensures forall e :: e in r.entries ==> e in RefreshInputDevices(devices, current).entries
    ensures r.entries != [] ==> r.selected == r.entries[0]
    ensures r.entries == [] ==> r.selected == current
  {
    AsWrittenEntriesListed(devices, current);
    InputList(devices, MicrophoneIndicesAsWritten(devices), current)
  }

  /** Entry by entry, the source's list is part of the index-matched list. */
  lemma AsWrittenEntriesListed(devices: seq<Device>, current: string)
    ensures var r, c := InputList(devices, MicrophoneIndicesAsWritten(devices), current),
                        InputList(devices, MicrophoneIndices(devices), current);
      forall k :: 0 <= k < |r.entries| ==> r.entries[k] in c.entries
  {
    var r := InputList(devices, MicrophoneIndicesAsWritten(devices), current);
    forall k | 0 <= k < |r.entries|
      ensures r.entries[k] in InputList(devices, MicrophoneIndices(devices), current).entries
    {
      AsWrittenEntryListed(devices, current, k);
    }
  }

  /** Entry `k` of the source's list is in the index-matched list. */
  lemma AsWrittenEntryListed(devices: seq<Device>, current: string, k: nat)
    requires k < |InputList(devices, MicrophoneIndicesAsWritten(devices), current).entries|
    ensures InputList(devices, MicrophoneIndicesAsWritten(devices), current).entries[k]
              in InputList(devices, MicrophoneIndices(devices), current).entries
  {
    var st, aw, mic := StereoMixIndices(devices), MicrophoneIndicesAsWritten(devices), MicrophoneIndices(devices);
    var e := InputList(devices, aw, current).entries[k];
    if k < |st| {
      assert e == StereoMixLabel(st[k], devices[st[k]].name);
      StereoMixEntryListed(devices, mic, current, st[k]);
    } else {
      var i := aw[k - |st|];
      assert e == Label(i, devices[i].name);
      AsWrittenSkipsStereoMix(devices, i);
      MicrophoneEntryListed(devices, mic, current, i);
    }
  }

  /** Every device with input channels is offered exactly once: under the
      stereo-mix tag when its name mentions system capture, as a microphone
      otherwise; devices without inputs are not offered.  The stereo-mix
      entries come first, and the preselected entry is the first one. */
  lemma InputDevicesListedOnce(devices: seq<Device>, current: string, i: nat)
    requires i < |devices|
    ensures var st, mic := StereoMixIndices(devices), MicrophoneIndices(devices);
      && (i in st <==> IsStereoMix(devices[i]))
      && (i in mic <==> devices[i].maxInputChannels > 0 && !IsStereoMix(devices[i]))
    ensures var r := RefreshInputDevices(devices, current);
      && r.entries == FindStereoMixDevices(devices) + PlainLabels(devices, MicrophoneIndices(devices))
      && (r.entries != [] ==> r.selected == r.entries[0])
      && (r.entries == [] ==> r.selected == current)
  {
    var st, mic := StereoMixIndices(devices), MicrophoneIndices(devices);
    if i in st {
      var k :| 0 <= k < |st| && st[k] == i;
    }
    if i in mic {
      var k :| 0 <= k < |mic| && mic[k] == i;
    }
  }

  /** The substring filter does skip every stereo-mix device, whose tagged
      entry begins with its own `"i: name"`; so it never lists more
      microphones than the index-based filter. */
  lemma AsWrittenSkipsStereoMix(devices: seq<Device>, i: nat)
    requires i in MicrophoneIndicesAsWritten(devices)
    ensures i < |devices| && !IsStereoMix(devices[i])
    ensures i in MicrophoneIndices(devices)
  {
    var w := MicrophoneIndicesAsWritten(devices);
    var k0 :| 0 <= k0 < |w| && w[k0] == i;
    var d := devices[i];
    if IsStereoMix(d) {
      var st := StereoMixIndices(devices);
      var stereo := FindStereoMixDevices(devices);
      var k :| 0 <= k < |st| && st[k] == i;
      assert stereo[k] == StereoMixLabel(i, d.name);
      var l := Label(i, d.name);
      assert OccursAt(stereo[k], l, 0);
      assert Contains(stereo[k], l);
      assert false;
    }
  }

  /** Whenever an ordinary input device's `"i: name"` occurs inside the
      tagged entry of some stereo-mix device, the substring filter drops a
      microphone that the index-based filter keeps. */
  lemma SubstringFilterDrops(devices: seq<Device>, i: nat, j: nat)
    requires i < |devices| && j < |devices|
    requires devices[i].maxInputChannels > 0 && !IsStereoMix(devices[i]) && IsStereoMix(devices[j])
    requires Contains(StereoMixLabel(j, devices[j].name), Label(i, devices[i].name))
    ensures i in MicrophoneIndices(devices) && i !in MicrophoneIndicesAsWritten(devices)
  {
    var st := StereoMixIndices(devices);
    var k :| 0 <= k < |st| && st[k] == j;
    var stereo := FindStereoMixDevices(devices);
    assert stereo[k] == StereoMixLabel(j, devices[j].name);
  }

  lemma LineIsPlainInput()
    ensures !MentionsSystemCapture("Line")
  {
  }

  lemma LineCableIsStereoMix()
    ensures MentionsSystemCapture("Line cable")
  {
    forall j | 0 <= j < 10 ensures LowerAscii("Line cable")[j] == "line cable"[j] { }
    assert OccursAt(LowerAscii("Line cable"), StereoMixKeywords[6], 5);
  }

  lemma LineOccursInLineCableEntry()
    ensures Contains(StereoMixLabel(11, "Line cable"), Label(1, "Line"))
  {
    var one := NatToString(1);
    assert NatToString(11) == one + one;
    var plain := one + ": " + "Line";
    assert "Line cable" == "Line" + " cable";
    assert StereoMixLabel(11, "Line cable") == one + plain + (" cable" + SystemSoundTag);
    OccursBetween(one, plain, " cable" + SystemSoundTag);
  }

  /** `sub` occurs in `pre + sub + post` right after `pre`. */
  lemma OccursBetween(pre: string, sub: string, post: string)
    ensures Contains(pre + sub + post, sub)
  {
    var s := pre + sub + post;
    assert s[|pre|..|pre| + |sub|] == sub;
    assert OccursAt(s, sub, |pre|);
  }

  /** The device table of `SubstringFilterDropsMicrophone`: device 1 "Line"
      is an ordinary input, device 11 "Line cable" is a virtual cable, and
      the other ten are output-only speakers. */
  function LineAndCable(): (devices: seq<Device>)
    ensures |devices| == 12
    ensures forall i :: 0 <= i < 12 && devices[i].maxInputChannels > 0 ==> i == 1 || i == 11
  {
    seq(12, i =>
      if i == 1 then Device("Line", 2, 0, 0)
      else if i == 11 then Device("Line cable", 2, 0, 0)
      else Device("Speakers", 0, 2, 0))
  }

  /** The input that shows the substring filter dropping a microphone: the
      entry "1: Line" occurs inside "11: Line cable 🔊 СИСТЕМНЫЙ ЗВУК", so
      device 1 is offered by the index-based list and missing from the list
      the source builds. */
  lemma SubstringFilterDropsMicrophone()
    ensures 1 in MicrophoneIndices(LineAndCable()) && 1 !in MicrophoneIndicesAsWritten(LineAndCable())
    ensures "1: Line" in RefreshInputDevices(LineAndCable(), "").entries
    ensures "1: Line" !in RefreshInputDevicesAsWritten(LineAndCable(), "").entries
  {
    SubstringFilterDropsLine();
    LineListedByIndex();
    LineMissingAsWritten();
  }

  /** The index-matched list offers device 1 as "1: Line". */
  lemma LineListedByIndex()
    ensures "1: Line" in RefreshInputDevices(LineAndCable(), "").entries
  {
    var devices := LineAndCable();
    assert devices[1] == Device("Line", 2, 0, 0);
    LineIsPlainInput();
    assert Label(1, "Line") == "1: Line";
  }

  /** The source's list holds only the tagged stereo-mix entry, so not "1: Line". */
  lemma LineMissingAsWritten()
    ensures "1: Line" !in RefreshInputDevicesAsWritten(LineAndCable(), "").entries
  {
    AsWrittenListsNoMicrophone();
    OnlyStereoMixEntries(LineAndCable(), "");
  }

  /** Index-level half of `SubstringFilterDropsMicrophone`. */
  lemma SubstringFilterDropsLine()
    ensures 1 in MicrophoneIndices(LineAndCable()) && 1 !in MicrophoneIndicesAsWritten(LineAndCable())
  {
    var devices := LineAndCable();
    assert devices[1] == Device("Line", 2, 0, 0);
    assert devices[11] == Device("Line cable", 2, 0, 0);
    LineIsPlainInput();
    LineCableIsStereoMix();
    LineOccursInLineCableEntry();
    SubstringFilterDrops(devices, 1, 11);
  }

  /** In `LineAndCable` the substring filter leaves no microphone at all. */
  lemma AsWrittenListsNoMicrophone()
    ensures MicrophoneIndicesAsWritten(LineAndCable()) == []
  {
    SubstringFilterDropsLine();
    OnlyLineIsPlain();
    NoMicrophoneLeft(LineAndCable(), 1);
  }

  /** In `LineAndCable` every input device other than device 1 is a stereo
      mix. */
  lemma OnlyLineIsPlain()
    ensures var devices := LineAndCable();
      forall i :: 0 <= i < |devices| && devices[i].maxInputChannels > 0 && i != 1 ==> IsStereoMix(devices[i])
  {
    var devices := LineAndCable();
    assert devices[11] == Device("Line cable", 2, 0, 0);
    LineCableIsStereoMix();
  }

  /** When every input device but `i0` is a stereo mix and the substring
      filter drops `i0`, no microphone is listed. */
  lemma NoMicrophoneLeft(devices: seq<Device>, i0: nat)
    requires i0 !in MicrophoneIndicesAsWritten(devices)
    requires forall i :: 0 <= i < |devices| && devices[i].maxInputChannels > 0 && i != i0 ==> IsStereoMix(devices[i])
    ensures MicrophoneIndicesAsWritten(devices) == []
  {
    var aw := MicrophoneIndicesAsWritten(devices);
    if aw != [] {
      AsWrittenSkipsStereoMix(devices, aw[0]);
    }
  }

  /** Without microphones every listed entry carries the stereo-mix tag, so
      it is longer than the tag. */
  lemma OnlyStereoMixEntries(devices: seq<Device>, current: string)
    requires MicrophoneIndicesAsWritten(devices) == []
    ensures forall e :: e in RefreshInputDevicesAsWritten(devices, current).entries ==> |e| > |SystemSoundTag|
  {
    var w, st := RefreshInputDevicesAsWritten(devices, current), StereoMixIndices(devices);
    assert w == InputList(devices, [], current);
    forall k | 0 <= k < |w.entries| ensures |w.entries[k]| > |SystemSoundTag| {
      assert w.entries[k] == StereoMixLabel(st[k], devices[st[k]].name);
      StereoMixLabelIsLong(st[k], devices[st[k]].name);
    }
  }

  /** A tagged stereo-mix entry is longer than the tag itself. */
  lemma StereoMixLabelIsLong(i: nat, name: string)
    ensures |StereoMixLabel(i, name)| > |SystemSoundTag|
  {
  }

  /** The indices of the devices the receiver can play to. */
  function OutputIndices(devices: seq<Device>): seq<nat> {
    Select(devices, (i: nat, d: Device) => d.maxOutputChannels > 0, 0)
  }

  /** Every device with output channels names a host API that exists. */
  predicate HostApisKnown(devices: seq<Device>, hostApis: seq<string>) {
    forall i | 0 <= i < |devices| :: devices[i].maxOutputChannels > 0 ==> devices[i].hostApi < |hostApis|
  }

  /** The receiver's `refresh_devices`: one entry per output device, in index
      order, labelled with its host API's name; the first entry is selected
      when nothing was.  A host-API index out of range raises IndexError,
      which the handler reports, leaving the selector as it was (None). */
  function RefreshOutputDevices(devices: seq<Device>, hostApis: seq<string>, current: string): (r: Option<DeviceList>)
    ensures r.Some? <==> HostApisKnown(devices, hostApis)
    ensures r.Some? ==> |r.value.entries| == |OutputIndices(devices)|
    ensures r.Some? ==> r.value.selected == (if current == "" && r.value.entries != [] then r.value.entries[0] else current)
  {
    if !HostApisKnown(devices, hostApis) then None
    else
      var idx := OutputIndices(devices);
      var entries := seq(|idx|, k requires 0 <= k < |idx| =>
        OutputLabel(idx[k], devices[idx[k]].name, hostApis[devices[idx[k]].hostApi]));
      Some(DeviceList(entries, if current == "" && entries != [] then entries[0] else current))
  }

  /** When the list is built, device `i` has an entry exactly when it has
      output channels, and that entry carries its index, name and host API. */
  lemma OutputDevicesListed(devices: seq<Device>, hostApis: seq<string>, current: string, i: nat)
    requires i < |devices|
    requires HostApisKnown(devices, hostApis)
    ensures var idx, r := OutputIndices(devices), RefreshOutputDevices(devices, hostApis, current);
      && (i in idx <==> devices[i].maxOutputChannels > 0)
      && (forall k :: 0 <= k < |idx| && idx[k] == i ==>
            r.value.entries[k] == OutputLabel(i, devices[i].name, hostApis[devices[i].hostApi]))
  {
    var idx := OutputIndices(devices);
    if i in idx {
      var k :| 0 <= k < |idx| && idx[k] == i;
    }
  }
}
