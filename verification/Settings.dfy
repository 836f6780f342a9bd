// The settings monvark prints and reads back (config.go, parseInts; devices.go;
// payout.go, appendSetting), and the devices they select (device_opencl.go,
// newMinerDevs).
module Settings {
  import opened Integers
  import opened Options
  import opened Text

  // A comma-separated list of integers, each maybe with spaces around it.
  function IntsIn(fields: seq<string>): (ints: Option<seq<int>>)
    ensures ints.Some? ==> |ints.value| == |fields|
  {
    if fields == [] then Some([])
    else
      var rest := IntsIn(fields[..|fields| - 1]);
      var last := Atoi(TrimSpace(fields[|fields| - 1]));
      if rest.Some? && last.Some? then Some(rest.value + [last.value]) else None
  }

  // A field that is no integer fails the list it is in.
  lemma {:induction false} BadField(fields: seq<string>, i: nat)
    requires i < |fields| && Atoi(TrimSpace(fields[i])).None?
    ensures IntsIn(fields).None?
  {
    if i < |fields| - 1 {
      BadField(fields[..|fields| - 1], i);
    }
  }

  method ParseInts(s: string) returns (ints: Option<seq<int>>)
    ensures ints == IntsIn(Split(s, ','))
    ensures var fields := Split(s, ',');
            && (ints.Some? ==> |ints.value| == |fields| > 0 &&
                               forall i :: 0 <= i < |fields| ==> Atoi(TrimSpace(fields[i])) == Some(ints.value[i]))
            && (ints.None? ==> exists i :: 0 <= i < |fields| && Atoi(TrimSpace(fields[i])).None?)
  {
    hide Split, Atoi, TrimSpace;
    var fields := Split(s, ',');
    var values := new int[|fields|];
    for i := 0 to |fields|
      invariant IntsIn(fields[..i]) == Some(values[..i])
      invariant forall k :: 0 <= k < i ==> Atoi(TrimSpace(fields[k])) == Some(values[k])
    {
      assert fields[..i + 1][..i] == fields[..i];
      var v := Atoi(TrimSpace(fields[i]));
      if v.None? {
        BadField(fields, i);
        return None;
      }
      values[i] := v.value;
      assert values[..i + 1] == values[..i] + [v.value];
    }
    assert fields[..|fields|] == fields && values[..|fields|] == values[..];
    return Some(values[..]);
  }

  predicate InRange(ids: seq<int>, numDevices: nat) {
    forall i :: 0 <= i < |ids| ==> 0 <= ids[i] < numDevices
  }

  // The devices an answer to the prompt chooses.
  function ChoiceIn(line: string, numDevices: nat): Option<seq<int>> {
    var answer := TrimSpace(line);
    if answer == "" then None
    else
      var ids := IntsIn(Split(answer, ','));
      if ids.Some? && InRange(ids.value, numDevices) then ids else None
  }

  method ParseDeviceChoice(line: string, numDevices: nat) returns (choice: Option<seq<int>>)
    ensures choice == ChoiceIn(line, numDevices)
    ensures choice.Some? ==> TrimSpace(line) != "" && choice == IntsIn(Split(TrimSpace(line), ','))
    ensures choice.Some? ==> choice.value != []
    ensures choice.Some? ==> forall i :: 0 <= i < |choice.value| ==> 0 <= choice.value[i] < numDevices
    ensures choice.None? && TrimSpace(line) != "" && IntsIn(Split(TrimSpace(line), ',')).Some? ==>
              var ids := IntsIn(Split(TrimSpace(line), ',')).value;
              exists i :: 0 <= i < |ids| && (ids[i] < 0 || ids[i] >= numDevices)
  {
    hide IntsIn, Split, TrimSpace;
    var answer := TrimSpace(line);
    if answer == "" {
      return None;
    }
    var ids := ParseInts(answer);
    if ids.None? {
      return None;
    }
    for i := 0 to |ids.value|
      invariant InRange(ids.value[..i], numDevices)
    {
      if ids.value[i] < 0 || ids.value[i] >= numDevices {
        return None;
      }
    }
    assert ids.value[..|ids.value|] == ids.value;
    return ids;
  }

  // Printed numbers, and their reading back.
  function Printed(ids: seq<nat>): (parts: seq<string>)
    ensures |parts| == |ids|
    ensures forall i :: 0 <= i < |ids| ==> parts[i] == Itoa(ids[i])
  {
    if ids == [] then [] else Printed(ids[..|ids| - 1]) + [Itoa(ids[|ids| - 1])]
  }

  lemma {:induction false} IntsOfPrinted(ids: seq<nat>)
    requires forall i :: 0 <= i < |ids| ==> ids[i] < TWO_TO_THE_63
    ensures IntsIn(Printed(ids)) == Some(ids)
  {
    hide Atoi, Itoa, TrimSpace;
    if ids != [] {
      var front, last := ids[..|ids| - 1], ids[|ids| - 1];
      IntsOfPrinted(front);
      TrimDigits(Itoa(last));
      AtoiOfItoa(last);
      assert Printed(ids)[..|ids| - 1] == Printed(front) && Printed(ids)[|ids| - 1] == Itoa(last);
      assert front + [last] == ids;
    }
  }

  // With spaces around them they read back as well.
  lemma {:induction false} PaddedReadsBack(ids: seq<nat>, fields: seq<string>, before: seq<string>, after: seq<string>)
    requires |fields| == |ids| == |before| == |after|
    requires forall i :: 0 <= i < |ids| ==> ids[i] < TWO_TO_THE_63 && AllSpaces(before[i]) && AllSpaces(after[i])
    requires forall i :: 0 <= i < |ids| ==> fields[i] == before[i] + Itoa(ids[i]) + after[i]
    ensures IntsIn(fields) == Some(ids)
  {
    hide Atoi, Itoa, TrimSpace, IsSpace, AllSpaces;
    if ids != [] {
      var n := |ids| - 1;
      PaddedReadsBack(ids[..n], fields[..n], before[..n], after[..n]);
      var digits := Itoa(ids[n]);
      Blanks(digits[0]);
      Blanks(digits[|digits| - 1]);
      assert IsDigit(digits[0]) && IsDigit(digits[|digits| - 1]);
      TrimPadded(before[n], digits, after[n]);
      AtoiOfItoa(ids[n]);
      assert ids[..n] + [ids[n]] == ids;
    }
  }

  // What saveDeviceChoice writes after devices= reads back as the same indexes.
  lemma PrintedReadsBack(ids: seq<nat>)
    requires ids != [] && forall i :: 0 <= i < |ids| ==> ids[i] < TWO_TO_THE_63
    ensures IntsIn(Split(Join(Printed(ids), ","), ',')) == Some(ids)
  {
    forall i | 0 <= i < |ids|
      ensures ',' !in Printed(ids)[i]
    {
      TrimDigits(Itoa(ids[i]));
    }
    SplitJoin(Printed(ids), ',');
    IntsOfPrinted(ids);
  }

  // A device newMinerDevs has built: its index in the enumeration, its position
  // among those built, and its name.
  datatype Built = Built(index: nat, order: nat, name: string)

  // The built devices of an enumeration; none named means all.
  function BuiltFrom(names: seq<string>, ids: seq<int>): (built: seq<Built>)
    ensures |built| <= |names|
  {
    if names == [] then []
    else
      var n := |names| - 1;
      var before := BuiltFrom(names[..n], ids);
      if ids == [] || n in ids then before + [Built(n, |before|, names[n])] else before
  }

  // The names of every platform's devices in one enumeration, if every platform
  // could be asked for them.
  function Flat(platforms: seq<Option<seq<string>>>): Option<seq<string>> {
    if platforms == [] then Some([])
    else
      var before, last := Flat(platforms[..|platforms| - 1]), platforms[|platforms| - 1];
      if before.Some? && last.Some? then Some(before.value + last.value) else None
  }

  lemma {:induction false} FlatFails(platforms: seq<Option<seq<string>>>, p: nat)
    requires p < |platforms| && platforms[p].None?
    ensures Flat(platforms).None?
  {
    if p < |platforms| - 1 {
      FlatFails(platforms[..|platforms| - 1], p);
    }
  }

  lemma {:induction false} FlatGrows(platforms: seq<Option<seq<string>>>, p: nat)
    requires p <= |platforms| && Flat(platforms).Some?
    ensures Flat(platforms[..p]).Some? && Flat(platforms[..p]).value <= Flat(platforms).value
  {
    if p < |platforms| {
      assert platforms[..|platforms| - 1][..p] == platforms[..p];
      FlatGrows(platforms[..|platforms| - 1], p);
    } else {
      assert platforms[..p] == platforms;
    }
  }

  // A device's index counts the devices of the platforms before its own, and then
  // its place on that.
  lemma FlatAt(platforms: seq<Option<seq<string>>>, p: nat, k: nat)
    requires Flat(platforms).Some? && p < |platforms| && platforms[p].Some? && k < |platforms[p].value|
    ensures Flat(platforms[..p]).Some?
    ensures var i := |Flat(platforms[..p]).value| + k;
            i < |Flat(platforms).value| && Flat(platforms).value[i] == platforms[p].value[k]
  {
    FlatGrows(platforms, p);
    FlatGrows(platforms, p + 1);
    assert platforms[..p + 1][..p] == platforms[..p];
  }

  // Whether some device that is to be built cannot be.
  predicate SomeFails(names: seq<string>, ids: seq<int>, broken: set<nat>) {
    exists i :: 0 <= i < |names| && (ids == [] || i in ids) && i in broken
  }

  // newMinerDevs over the answers of the platforms, and of the devices that the
  // enumeration's indexes say are broken: one failure fails it all.
  method NewMinerDevs(platforms: Option<seq<Option<seq<string>>>>, ids: seq<int>, broken: set<nat>)
    returns (devices: Option<seq<Built>>)
    ensures devices == if platforms.None? || Flat(platforms.value).None? then None
                       else if SomeFails(Flat(platforms.value).value, ids, broken) then None
                       else Some(BuiltFrom(Flat(platforms.value).value, ids))
    ensures platforms.Some? && Flat(platforms.value).Some? ==>
              var names := Flat(platforms.value).value;
              devices.None? <==> exists i :: 0 <= i < |names| && (ids == [] || i in ids) && i in broken
  {
    if platforms.None? {
      return None;
    }
    var deviceListIndex := 0;
    var deviceListEnabledCount := 0;
    var built: seq<Built> := [];
    ghost var seen: seq<string> := [];
    for p := 0 to |platforms.value|
      invariant Flat(platforms.value[..p]) == Some(seen) && deviceListIndex == |seen|
      invariant built == BuiltFrom(seen, ids) && deviceListEnabledCount == |built|
      invariant !SomeFails(seen, ids, broken)
    {
      if platforms.value[p].None? {
        FlatFails(platforms.value, p);
        return None;
      }
      var names := platforms.value[p].value;
      ghost var before := seen;
      assert platforms.value[..p + 1][..p] == platforms.value[..p];
      for k := 0 to |names|
        invariant seen == before + names[..k] && deviceListIndex == |seen|
        invariant built == BuiltFrom(seen, ids) && deviceListEnabledCount == |built|
        invariant !SomeFails(seen, ids, broken)
      {
        ghost var more := seen + [names[k]];
        assert more[..|seen|] == seen;
        if |ids| == 0 || deviceListIndex in ids {
          if deviceListIndex in broken {
            assert more == (before + names)[..|more|];
            FailsLater(platforms.value, p, before + names, ids, broken, deviceListIndex);
            return None;
          }
          built := built + [Built(deviceListIndex, deviceListEnabledCount, names[k])];
          deviceListEnabledCount := deviceListEnabledCount + 1;
        }
        deviceListIndex := deviceListIndex + 1;
        seen := more;
      }
      assert names[..|names|] == names;
    }
    assert platforms.value[..|platforms.value|] == platforms.value;
    return Some(built);
  }

  lemma FailsLater(platforms: seq<Option<seq<string>>>, p: nat, upTo: seq<string>, ids: seq<int>, broken: set<nat>,
                   i: nat)
    requires p < |platforms| && Flat(platforms[..p + 1]) == Some(upTo)
    requires i < |upTo| && (ids == [] || i in ids) && i in broken
    ensures Flat(platforms).Some? ==> SomeFails(Flat(platforms).value, ids, broken)
  {
    if Flat(platforms).Some? {
      FlatGrows(platforms, p + 1);
    }
  }

  function Indexes(built: seq<Built>): (ids: seq<nat>)
    ensures |ids| == |built|
    ensures forall k :: 0 <= k < |built| ==> ids[k] == built[k].index
  {
    if built == [] then [] else Indexes(built[..|built| - 1]) + [built[|built| - 1].index]
  }

  // Devices in the order of the enumeration, each once, with their positions
  // and names.
  predicate InOrder(built: seq<Built>, names: seq<string>) {
    && (forall k :: 0 <= k < |built| ==> IsPlaced(built[k], k, names))
    && (forall j, k :: 0 <= j < k < |built| ==> built[j].index < built[k].index)
  }

  predicate IsPlaced(b: Built, order: nat, names: seq<string>) {
    b.order == order && b.index < |names| && b.name == names[b.index]
  }

  lemma {:induction false} BuiltInOrder(names: seq<string>, ids: seq<int>)
    ensures InOrder(BuiltFrom(names, ids), names)
  {
    if names != [] {
      var n := |names| - 1;
      var before := BuiltFrom(names[..n], ids);
      BuiltInOrder(names[..n], ids);
      var built := BuiltFrom(names, ids);
      forall k | 0 <= k < |before|
        ensures IsPlaced(before[k], k, names) && before[k].index < n
      {
        assert IsPlaced(before[k], k, names[..n]);
      }
    }
  }

  lemma IndexesOfMore(built: seq<Built>, last: Built)
    ensures Indexes(built + [last]) == Indexes(built) + [last.index]
  {
    assert (built + [last])[..|built|] == built;
  }

  lemma NoneIsLater(built: seq<Built>, names: seq<string>, n: nat)
    requires InOrder(built, names) && n >= |names|
    ensures n !in Indexes(built)
  {
    forall k | 0 <= k < |built|
      ensures Indexes(built)[k] < n
    {
      assert IsPlaced(built[k], k, names);
    }
  }

  // Exactly the devices that were named are built, or every one if none was.
  lemma {:induction false} BuiltAreTheNamed(names: seq<string>, ids: seq<int>, i: nat)
    requires i < |names|
    ensures i in Indexes(BuiltFrom(names, ids)) <==> ids == [] || i in ids
  {
    hide Indexes, InOrder;
    var n := |names| - 1;
    var before := BuiltFrom(names[..n], ids);
    IndexesOfMore(before, Built(n, |before|, names[n]));
    BuiltInOrder(names[..n], ids);
    NoneIsLater(before, names[..n], n);
    if i < n {
      BuiltAreTheNamed(names[..n], ids, i);
    }
  }

  // Naming the built devices by their indexes builds them again.
  lemma {:induction false} BuiltAgain(names: seq<string>, ids: seq<int>, saved: seq<int>)
    requires saved != []
    requires forall i :: 0 <= i < |names| ==> (i in saved <==> ids == [] || i in ids)
    ensures BuiltFrom(names, saved) == BuiltFrom(names, ids)
  {
    if names != [] {
      BuiltAgain(names[..|names| - 1], ids, saved);
    }
  }

  // The first run's answer, however unsorted or repetitive, is a fixpoint: what
  // is saved of it reads back, and builds on the same enumeration the same
  // devices at the same positions, hence with the same per-position settings.
  lemma FirstRunIsFixpoint(line: string, names: seq<string>)
    requires |names| < TWO_TO_THE_63 && ChoiceIn(line, |names|).Some?
    ensures var built := BuiltFrom(names, ChoiceIn(line, |names|).value);
            && built != []
            && var saved := Join(Printed(Indexes(built)), ",");
            && IntsIn(Split(saved, ',')) == Some(Indexes(built))
            && ChoiceIn(saved, |names|) == Some(Indexes(built))
            && BuiltFrom(names, Indexes(built)) == built
  {
    hide BuiltFrom, Indexes, IntsIn, Split, Join, Printed, TrimSpace;
    var ids := ChoiceIn(line, |names|).value;
    var built := BuiltFrom(names, ids);
    ChoiceIsNotEmpty(line, |names|);
    BuiltAreTheNamed(names, ids, ids[0]);
    BuiltInOrder(names, ids);
    forall k | 0 <= k < |built|
      ensures Indexes(built)[k] < |names|
    {
      assert IsPlaced(built[k], k, names);
    }
    forall i | 0 <= i < |names|
      ensures i in Indexes(built) <==> ids == [] || i in ids
    {
      BuiltAreTheNamed(names, ids, i);
    }
    BuiltAgain(names, ids, Indexes(built));
    PrintedReadsBack(Indexes(built));
    PrintedIsTrimmed(Indexes(built));
  }

  lemma ChoiceIsNotEmpty(line: string, numDevices: nat)
    requires ChoiceIn(line, numDevices).Some?
    ensures ChoiceIn(line, numDevices).value != [] && InRange(ChoiceIn(line, numDevices).value, numDevices)
  {
    hide IntsIn, Split, TrimSpace;
  }

  lemma PrintedIsTrimmed(ids: seq<nat>)
    requires ids != []
    ensures var s := Join(Printed(ids), ",");
            s != "" && TrimSpace(s) == s
  {
    hide Itoa, Printed;
    var parts := Printed(ids);
    assert IsDigit(parts[0][0]);
    JoinEnds(parts);
  }

  lemma {:induction false} JoinEnds(parts: seq<string>)
    requires parts != [] && forall i :: 0 <= i < |parts| ==> parts[i] != ""
    ensures var s := Join(parts, ",");
            s != "" && s[0] == parts[0][0] && s[|s| - 1] == parts[|parts| - 1][|parts[|parts| - 1]| - 1]
  {
    if |parts| > 1 {
      JoinEnds(parts[1..]);
    }
  }

  // An answer is saved as it was given exactly if it was sorted without
  // repetition.
  lemma SavedAsGiven(names: seq<string>, ids: seq<nat>)
    requires ids != [] && InRange(ids, |names|)
    ensures Indexes(BuiltFrom(names, ids)) == ids <==> Sorted(ids)
  {
    var saved := Indexes(BuiltFrom(names, ids));
    BuiltInOrder(names, ids);
    forall k | 0 <= k < |saved|
      ensures saved[k] in ids
    {
      assert IsPlaced(BuiltFrom(names, ids)[k], k, names);
      BuiltAreTheNamed(names, ids, saved[k]);
      assert saved[k] in saved;
    }
    forall k | 0 <= k < |ids|
      ensures ids[k] in saved
    {
      BuiltAreTheNamed(names, ids, ids[k]);
    }
    hide Indexes, BuiltFrom;
    if Sorted(ids) {
      SortedAreEqual(saved, ids);
    }
  }

  predicate Sorted(s: seq<nat>) {
    forall j, k :: 0 <= j < k < |s| ==> s[j] < s[k]
  }

  predicate Within(a: seq<nat>, b: seq<nat>) {
    forall k :: 0 <= k < |a| ==> a[k] in b
  }

  lemma {:induction false} SortedAreEqual(a: seq<nat>, b: seq<nat>)
    requires Sorted(a) && Sorted(b) && Within(a, b) && Within(b, a)
    ensures a == b
  {
    if a == [] {
      NotWithinEmpty(b);
    } else if b == [] {
      NotWithinEmpty(a);
    } else {
      SameLast(a, b);
      WithinFronts(a, b);
      WithinFronts(b, a);
      SortedAreEqual(a[..|a| - 1], b[..|b| - 1]);
      assert a == a[..|a| - 1] + [a[|a| - 1]] && b == b[..|b| - 1] + [b[|b| - 1]];
    }
  }

  lemma NotWithinEmpty(a: seq<nat>)
    ensures Within(a, []) ==> a == []
  {
    if a != [] {
      var empty: seq<nat> := [];
      assert a[0] !in empty;
    }
  }

  lemma SameLast(a: seq<nat>, b: seq<nat>)
    requires a != [] && b != [] && Sorted(a) && Sorted(b) && Within(a, b) && Within(b, a)
    ensures a[|a| - 1] == b[|b| - 1]
  {
    assert a[|a| - 1] in b && b[|b| - 1] in a;
  }

  lemma WithinFronts(a: seq<nat>, b: seq<nat>)
    requires a != [] && b != [] && Sorted(a) && Within(a, b) && a[|a| - 1] == b[|b| - 1]
    ensures Within(a[..|a| - 1], b[..|b| - 1])
  {
    forall k | 0 <= k < |a| - 1
      ensures a[k] in b[..|b| - 1]
    {
      assert a[k] in b && a[k] < a[|a| - 1];
    }
  }

  // What a file holds once text has been appended to it.
  function Appended(body: string, text: string): string {
    body + (if body != "" && body[|body| - 1] != '\n' then "\n" else "") + text
  }

  // What the system makes of an append: which of its calls fails, if one does,
  // and how much a failing write has written.
  datatype Fault = NoFault | OpenFails | StatFails | ReadFails | WriteFails(written: nat)

  // The last byte is read only if there is one.
  predicate AppendFails(body: string, fault: Fault) {
    fault.OpenFails? || fault.StatFails? || (fault.ReadFails? && body != "") || fault.WriteFails?
  }

  function Min(a: nat, b: nat): nat {
    if a < b then a else b
  }

  // A file monvark appends to, which need not exist yet.
  class File {
    var body: Option<string>

    ghost function Text(): string
      reads this
    {
      if body.Some? then body.value else ""
    }

    method AppendSetting(text: string, fault: Fault) returns (ok: bool)
      modifies this
      ensures ok <==> !AppendFails(old(Text()), fault)
      ensures ok <==> fault.NoFault? || (fault.ReadFails? && old(Text()) == "")
      ensures ok ==> body == Some(Appended(old(Text()), text))
      ensures ok ==>
                var was := old(Text());
                Text() == was + (if was != "" && was[|was| - 1] != '\n' then "\n" else "") + text
      ensures !ok && !fault.WriteFails? ==> Text() == old(Text())
      ensures fault.WriteFails? ==>
                var whole := Appended(old(Text()), text);
                Text() == whole[..Min(|old(Text())| + fault.written, |whole|)]
      ensures fault.OpenFails? ==> body == old(body)
      ensures !fault.OpenFails? ==> body.Some?
    {
      if fault.OpenFails? {
        return false;
      }
      if body.None? {
        body := Some("");
      }
      if fault.StatFails? {
        return false;
      }
      var prefix := "";
      var size := |body.value|;
      if size > 0 {
        if fault.ReadFails? {
          return false;
        }
        if body.value[size - 1] != '\n' {
          prefix := "\n";
        }
      }
      var line := prefix + text;
      assert Appended(body.value, text) == body.value + line;
      if fault.WriteFails? {
        body := Some(body.value + line[..Min(fault.written, |line|)]);
        return false;
      }
      body := Some(body.value + line);
      return true;
    }

    method SaveDeviceChoice(devices: seq<Built>, fault: Fault) returns (ok: bool)
      requires devices != []
      modifies this
      ensures ok <==> !AppendFails(old(Text()), fault)
      ensures ok ==> body == Some(Appended(old(Text()), DeviceSetting(devices)))
      ensures !ok ==> old(Text()) <= Text() <= Appended(old(Text()), DeviceSetting(devices))
    {
      hide Comments, Printed, Indexes, Itoa, Join, AppendFails;
      NoDevices();
      var setting := "";
      var ids: seq<string> := [];
      for i := 0 to |devices|
        invariant body == old(body)
        invariant setting == Comments(devices[..i]) && ids == Printed(Indexes(devices[..i]))
      {
        var d := devices[i];
        OneMoreDevice(devices[..i], d);
        assert devices[..i + 1] == devices[..i] + [d];
        setting := setting + "; " + d.name + "\n";
        ids := ids + [Itoa(d.index)];
      }
      assert devices[..|devices|] == devices;
      ok := AppendSetting(setting + Ended("devices=" + Join(ids, ",")), fault);
    }
  }

  function Comments(devices: seq<Built>): string {
    if devices == [] then ""
    else Comments(devices[..|devices| - 1]) + "; " + devices[|devices| - 1].name + "\n"
  }

  function DeviceSetting(devices: seq<Built>): string
    requires devices != []
  {
    Comments(devices) + Ended(ChoiceLine(devices))
  }

  function ChoiceLine(devices: seq<Built>): string
    requires devices != []
  {
    "devices=" + Join(Printed(Indexes(devices)), ",")
  }

  function Ended(line: string): string {
    line + ['\n']
  }

  lemma NoDevices()
    ensures Comments([]) == "" && Printed(Indexes([])) == []
  {
  }

  lemma OneMoreDevice(devices: seq<Built>, d: Built)
    ensures Comments(devices + [d]) == Comments(devices) + "; " + d.name + "\n"
    ensures Printed(Indexes(devices + [d])) == Printed(Indexes(devices)) + [Itoa(d.index)]
  {
    assert (devices + [d])[..|devices|] == devices;
    var ids := Indexes(devices);
    assert Indexes(devices + [d]) == ids + [d.index];
    assert (ids + [d.index])[..|ids|] == ids;
  }

  // Appending text that ends its last line adds its lines to the file's, and
  // never joins one to the file's last line, whether that one was ended or not.
  lemma AppendedLines(body: string, text: string)
    ensures Lines(Appended(body, text)) == Lines(body) + Lines(text)
  {
    NoLine();
    hide Split;
    if body == "" {
      assert Appended(body, text) == text;
    } else if body[|body| - 1] == '\n' {
      var front := body[..|body| - 1];
      assert body == front + ['\n'] + "" && Appended(body, text) == front + ['\n'] + text;
      SplitAt(front, "", '\n');
      SplitAt(front, text, '\n');
    } else {
      assert Appended(body, text) == body + ['\n'] + text;
      SplitAt(body, text, '\n');
      LastPart(body);
    }
  }

  lemma {:induction false} LastPart(s: string)
    requires s != "" && s[|s| - 1] != '\n'
    ensures var parts := Split(s, '\n');
            parts[|parts| - 1] != ""
  {
    if |s| > 1 {
      LastPart(s[1..]);
    } else {
      assert Split("", '\n') == [""];
    }
  }

  // The lines of the comments; a name with line breaks takes several.
  function CommentLines(devices: seq<Built>): seq<string> {
    if devices == [] then []
    else CommentLines(devices[..|devices| - 1]) + Split("; " + devices[|devices| - 1].name, '\n')
  }

  lemma {:induction false} SplitComments(devices: seq<Built>, rest: string)
    ensures Split(Comments(devices) + rest, '\n') == CommentLines(devices) + Split(rest, '\n')
  {
    hide Split;
    if devices == [] {
      assert "" + rest == rest;
    } else {
      var front := devices[..|devices| - 1];
      var line := "; " + devices[|devices| - 1].name;
      var more := line + ['\n'] + rest;
      assert Comments(devices) + rest == Comments(front) + more;
      SplitComments(front, more);
      SplitAt(line, rest, '\n');
    }
  }

  // A name without line breaks is one line of comment.
  lemma {:induction false} OneCommentEach(devices: seq<Built>)
    requires forall k :: 0 <= k < |devices| ==> '\n' !in devices[k].name
    ensures |CommentLines(devices)| == |devices|
    ensures forall k :: 0 <= k < |devices| ==> CommentLines(devices)[k] == "; " + devices[k].name
  {
    if devices != [] {
      var n := |devices| - 1;
      OneCommentEach(devices[..n]);
      SplitWhole("; " + devices[n].name, '\n');
    }
  }

  // The saved choice is lines of its own: the comments naming the devices, and
  // the setting, which is one line whatever the names.
  lemma SavedLines(body: string, devices: seq<Built>)
    requires devices != []
    ensures Lines(Appended(body, DeviceSetting(devices))) ==
            Lines(body) + (CommentLines(devices) + ["devices=" + Join(Printed(Indexes(devices)), ",")])
  {
    assert ChoiceLine(devices) == "devices=" + Join(Printed(Indexes(devices)), ",");
    hide Lines, Appended, ChoiceLine, Comments, CommentLines;
    AppendedLines(body, DeviceSetting(devices));
    ChoiceIsOneLine(devices);
    SettingLines(devices, ChoiceLine(devices));
  }

  lemma ChoiceIsOneLine(devices: seq<Built>)
    requires devices != []
    ensures '\n' !in ChoiceLine(devices)
  {
    hide Join, Printed, Indexes;
    NoNewline(Printed(Indexes(devices)));
  }

  lemma SettingLines(devices: seq<Built>, line: string)
    requires '\n' !in line
    ensures Lines(Comments(devices) + Ended(line)) == CommentLines(devices) + [line]
  {
    EndedSplits(line);
    hide Split, Comments, CommentLines, Ended, WithoutEmptyEnd;
    SplitComments(devices, Ended(line));
    EmptyEndDropped(CommentLines(devices), line);
  }

  lemma EndedSplits(line: string)
    requires '\n' !in line
    ensures Split(Ended(line), '\n') == [line, ""]
  {
    assert Ended(line) == line + ['\n'] + "";
    SplitAt(line, "", '\n');
    SplitWhole(line, '\n');
  }

  lemma NoLine()
    ensures Split("", '\n') == [""] && Lines("") == []
  {
  }

  lemma {:induction false} NoNewline(parts: seq<string>)
    requires parts != [] && forall k :: 0 <= k < |parts| ==> AllDigits(parts[k])
    ensures '\n' !in Join(parts, ",")
  {
    if |parts| > 1 {
      NoNewline(parts[1..]);
    }
  }
}
