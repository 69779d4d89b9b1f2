/**
 * The light-rig editor: the pan and tilt snap lists, snapping a slider value
 * to the nearest snap, the direction labels, the light-spec text handed back
 * to the wizard, and the state updates of the light tabs.
 */
module LightControls {
  import opened Wrappers
  import opened JsText
  import opened Wizard

  // ---------------------------------------------------------------------------
  // Snap lists
  // ---------------------------------------------------------------------------

  function Abs(x: int): int {
    if x < 0 then -x else x
  }

  /** flatMap(v => v === 0 ? [0] : [-v, v]) */
  function Mirror(vs: seq<int>): (r: seq<int>)
    ensures forall x :: x in r ==> -x in r
  {
    if vs == [] then []
    else (if vs[0] == 0 then [0] else [-vs[0], vs[0]]) + Mirror(vs[1..])
  }

  /** Mirroring non-negative values gives exactly the values whose magnitude is one of them. */
  lemma {:induction false} MirrorMembers(vs: seq<int>)
    requires forall v :: v in vs ==> v >= 0
    ensures forall x :: x in Mirror(vs) <==> Abs(x) in vs
  {
    if vs != [] {
      var rest := vs[1..];
      assert forall v :: v in rest ==> v in vs;
      MirrorMembers(rest);
      assert forall v :: v in vs <==> v == vs[0] || v in rest;
      assert vs[0] in vs;
      var head: seq<int> := if vs[0] == 0 then [0] else [-vs[0], vs[0]];
      assert Mirror(vs) == head + Mirror(rest);
      assert forall x :: x in head <==> Abs(x) == vs[0];
    }
  }

  /** Mirroring distinct non-negative values gives distinct values. */
  lemma {:induction false} MirrorNoDuplicates(vs: seq<int>)
    requires StrictlyAscending(vs)
    requires forall v :: v in vs ==> v >= 0
    ensures NoDuplicates(Mirror(vs))
  {
    if vs != [] {
      var rest := vs[1..];
      assert forall v :: v in rest ==> v in vs;
      MirrorNoDuplicates(rest);
      MirrorMembers(rest);
      assert vs[0] in vs;
      var head: seq<int> := if vs[0] == 0 then [0] else [-vs[0], vs[0]];
      var tail := Mirror(rest);
      assert Mirror(vs) == head + tail;
      forall x | x in tail ensures x !in head {
        assert Abs(x) in rest;
        var k :| 0 <= k < |rest| && rest[k] == Abs(x);
        assert vs[k + 1] == Abs(x);
        assert vs[0] < vs[k + 1];
        assert forall y :: y in head ==> Abs(y) == vs[0];
      }
      forall i, j | 0 <= i < j < |head + tail| ensures (head + tail)[i] != (head + tail)[j] {
        if j >= |head| && i < |head| {
          assert (head + tail)[j] in tail;
        }
        if i >= |head| {
          assert tail[i - |head|] != tail[j - |head|];
        }
      }
    }
  }

  predicate Ascending(s: seq<int>) {
    forall i, j :: 0 <= i < j < |s| ==> s[i] <= s[j]
  }

  predicate StrictlyAscending(s: seq<int>) {
    forall i, j :: 0 <= i < j < |s| ==> s[i] < s[j]
  }

  /** A value no larger than the head of an ascending list extends it. */
  lemma AscendingCons(a: int, t: seq<int>)
    requires Ascending(t) && (t != [] ==> a <= t[0])
    ensures Ascending([a] + t)
  {
    forall i, j | 0 <= i < j < |[a] + t| ensures ([a] + t)[i] <= ([a] + t)[j] {
      if i == 0 && j > 1 { assert t[0] <= t[j - 1]; }
    }
  }

  function InsertInt(x: int, s: seq<int>): (r: seq<int>)
    requires Ascending(s)
    ensures |r| == |s| + 1
    ensures r[0] == x || (s != [] && r[0] == s[0])
    ensures Ascending(r)
    ensures multiset(r) == multiset(s) + multiset{x}
  {
    if s == [] || x <= s[0] then
      AscendingCons(x, s);
      [x] + s
    else
      var rest := InsertInt(x, s[1..]);
      assert s == [s[0]] + s[1..];
      assert |s| > 1 ==> s[0] <= s[1];
      AscendingCons(s[0], rest);
      [s[0]] + rest
  }

  /** sort((a, b) => a - b): numeric ascending order, same elements. */
  function SortInts(s: seq<int>): (r: seq<int>)
    ensures Ascending(r)
    ensures multiset(r) == multiset(s)
  {
    if s == [] then []
    else
      assert s == [s[0]] + s[1..];
      InsertInt(s[0], SortInts(s[1..]))
  }

  const PanBase: seq<int> := [0, 30, 45, 60, 90, 120, 135, 150, 180]
  const TiltBase: seq<int> := [0, 30, 45, 60, 90]

  const PanSnaps: seq<int> := SortInts(Mirror(PanBase))
  const TiltSnaps: seq<int> := SortInts(Mirror(TiltBase))

  /** A sequence has no duplicates exactly when no element occurs twice in its multiset. */
  lemma {:induction false} NoDuplicatesCount(s: seq<int>)
    ensures NoDuplicates(s) <==> forall x :: multiset(s)[x] <= 1
  {
    if s != [] {
      NoDuplicatesCount(s[1..]);
      assert s == [s[0]] + s[1..];
      assert multiset(s) == multiset{s[0]} + multiset(s[1..]);
      if NoDuplicates(s) {
        assert s[0] !in s[1..];
        assert multiset(s[1..])[s[0]] == 0;
      } else {
        var i, j :| 0 <= i < j < |s| && s[i] == s[j];
        if i == 0 {
          assert s[1..][j - 1] == s[0];
          assert multiset(s)[s[0]] >= 2;
        } else {
          assert s[1..][i - 1] == s[1..][j - 1];
          assert !NoDuplicates(s[1..]);
          var x :| multiset(s[1..])[x] > 1;
          assert multiset(s)[x] > 1;
        }
      }
    }
  }

  /** Sorting a list without duplicates gives a strictly ascending list. */
  lemma SortedNoDuplicates(s: seq<int>)
    requires NoDuplicates(s)
    ensures NoDuplicates(SortInts(s)) && StrictlyAscending(SortInts(s))
  {
    NoDuplicatesCount(s);
    NoDuplicatesCount(SortInts(s));
  }


  /** A snap list: ascending, duplicate-free, symmetric about 0, `size` values within [-bound, bound], 0 among them. */
  predicate SnapList(snaps: seq<int>, size: nat, bound: int) {
    && |snaps| == size
    && StrictlyAscending(snaps)
    && (forall x :: x in snaps ==> -x in snaps)
    && (forall x :: x in snaps ==> -bound <= x <= bound)
    && 0 in snaps && bound in snaps
  }

  /** Sorting the mirror of distinct values in [0, bound], 0 and bound among them, gives a snap list. */
  lemma MirrorSorted(base: seq<int>, bound: int)
    requires StrictlyAscending(base)
    requires forall v :: v in base ==> 0 <= v <= bound
    requires 0 in base && bound in base
    ensures SnapList(SortInts(Mirror(base)), |Mirror(base)|, bound)
  {
    var m := Mirror(base);
    var r := SortInts(m);
    assert |r| == |m| by {
      assert |r| == |multiset(r)| == |multiset(m)| == |m|;
    }
    assert StrictlyAscending(r) by {
      MirrorNoDuplicates(base);
      SortedNoDuplicates(m);
    }
    assert forall x :: x in r <==> Abs(x) in base by {
      MirrorMembers(base);
      SameElements(r, m);
    }
    assert Abs(bound) == bound && Abs(0) == 0;
    forall x | x in r ensures -x in r {
      assert Abs(-x) == Abs(x);
    }
  }

  /** Each value other than 0 is mirrored into two. */
  lemma {:induction false} MirrorLength(vs: seq<int>)
    requires forall k :: 0 <= k < |vs| ==> vs[k] != 0
    ensures |Mirror(vs)| == 2 * |vs|
  {
    if vs != [] {
      MirrorLength(vs[1..]);
    }
  }

  /** Elements of a permutation are elements of the original and back. */
  lemma SameElements(r: seq<int>, s: seq<int>)
    requires multiset(r) == multiset(s)
    ensures forall x :: x in r <==> x in s
  {
    forall x ensures x in r <==> x in s {
      assert x in r <==> x in multiset(r);
      assert x in s <==> x in multiset(s);
    }
  }

  /** PAN_SNAPS: 17 ascending values from -180 to 180, symmetric about 0, no duplicates. */
  lemma PanSnapsShape()
    ensures SnapList(PanSnaps, 17, 180)
  {
    MirrorLength(PanBase[1..]);
    assert Mirror(PanBase) == [0] + Mirror(PanBase[1..]);
    MirrorSorted(PanBase, 180);
  }

  /** TILT_SNAPS: 9 ascending values from -90 to 90, symmetric about 0, no duplicates. */
  lemma TiltSnapsShape()
    ensures SnapList(TiltSnaps, 9, 90)
  {
    MirrorLength(TiltBase[1..]);
    assert Mirror(TiltBase) == [0] + Mirror(TiltBase[1..]);
    MirrorSorted(TiltBase, 90);
  }

  // ---------------------------------------------------------------------------
  // snapTo
  // ---------------------------------------------------------------------------

  /**
   * `snaps[k]` is the answer snapTo gives for `value`: no snap is nearer, and
   * every snap before index k is strictly farther.
   */
  predicate EarliestNearest(value: int, snaps: seq<int>, k: nat) {
    && k < |snaps|
    && (forall j :: 0 <= j < |snaps| ==> Abs(value - snaps[k]) <= Abs(value - snaps[j]))
    && (forall j :: 0 <= j < k ==> Abs(value - snaps[j]) > Abs(value - snaps[k]))
  }

  /** snapTo: the scan that keeps the first snap at the smallest distance seen so far. */
  method SnapTo(value: int, snaps: seq<int>) returns (closest: int)
    requires |snaps| > 0
    ensures exists k: nat :: EarliestNearest(value, snaps, k) && snaps[k] == closest
  {
    closest := snaps[0];
    var minDist := Abs(value - closest);
    ghost var at: nat := 0;
    var i := 0;
    while i < |snaps|
      invariant 0 <= i <= |snaps|
      invariant at < |snaps| && (at < i || at == 0)
      invariant snaps[at] == closest && minDist == Abs(value - closest)
      invariant forall j :: 0 <= j < i ==> minDist <= Abs(value - snaps[j])
      invariant forall j :: 0 <= j < at ==> Abs(value - snaps[j]) > minDist
    {
      var dist := Abs(value - snaps[i]);
      if dist < minDist {
        closest := snaps[i];
        minDist := dist;
        at := i;
      }
      i := i + 1;
    }
    assert EarliestNearest(value, snaps, at);
  }

  /** The earliest nearest snap is unique, so snapTo is a function of its inputs. */
  lemma EarliestNearestUnique(value: int, snaps: seq<int>, k: nat, l: nat)
    requires EarliestNearest(value, snaps, k) && EarliestNearest(value, snaps, l)
    ensures k == l
  {
    assert Abs(value - snaps[k]) == Abs(value - snaps[l]);
    if k != l {
      assert false;
    }
  }

  /** Snapping a value that is itself a snap returns that value. */
  lemma SnapOfSnap(value: int, snaps: seq<int>, k: nat)
    requires value in snaps && EarliestNearest(value, snaps, k)
    ensures snaps[k] == value
  {
    var j :| 0 <= j < |snaps| && snaps[j] == value;
    assert Abs(value - snaps[j]) == 0;
  }

  /** On an ascending list a tie between two snaps goes to the smaller one. */
  lemma SnapTieGoesLow(value: int, snaps: seq<int>, k: nat, j: nat)
    requires Ascending(snaps) && EarliestNearest(value, snaps, k)
    requires j < |snaps| && Abs(value - snaps[j]) == Abs(value - snaps[k])
    ensures snaps[k] <= snaps[j]
  {
  }

  /** A snapped pan value stays within the pan slider's range. */
  lemma PanSnapInRange(value: int, k: nat)
    requires EarliestNearest(value, PanSnaps, k)
    ensures -180 <= PanSnaps[k] <= 180
  {
    PanSnapsShape();
    assert PanSnaps[k] in PanSnaps;
  }

  /** A snapped tilt value stays within the tilt slider's range. */
  lemma TiltSnapInRange(value: int, l: nat)
    requires EarliestNearest(value, TiltSnaps, l)
    ensures -90 <= TiltSnaps[l] <= 90
  {
    TiltSnapsShape();
    assert TiltSnaps[l] in TiltSnaps;
  }

  // ---------------------------------------------------------------------------
  // Direction labels
  // ---------------------------------------------------------------------------

  /** "C" at 0, else the side letter, a space, the magnitude and a degree sign. */
  function SideLabel(v: int, negative: char, positive: char): (r: string)
    ensures v == 0 <==> r == "C"
    ensures v != 0 ==> |r| >= 4 && r[0] == (if v < 0 then negative else positive) && r[1] == ' ' && r[|r| - 1] == '°'
  {
    if v == 0 then "C"
    else if v < 0 then [negative, ' '] + IntToString(Abs(v)) + "°"
    else [positive, ' '] + IntToString(v) + "°"
  }

  /** panLabel: L for negative pan, R for positive. */
  function PanLabel(v: int): (r: string)
    ensures v == 0 <==> r == "C"
    ensures v != 0 ==> |r| > 0 && r[0] == (if v < 0 then 'L' else 'R')
  {
    SideLabel(v, 'L', 'R')
  }

  /** tiltLabel: D for negative tilt, U for positive. */
  function TiltLabel(v: int): (r: string)
    ensures v == 0 <==> r == "C"
    ensures v != 0 ==> |r| > 0 && r[0] == (if v < 0 then 'D' else 'U')
  {
    SideLabel(v, 'D', 'U')
  }

  /** Reading a label back: the side letter gives the sign, the digits the magnitude. */
  function LabelValue(text: string, negative: char, positive: char): Option<int> {
    if text == "C" then Some(0)
    else if |text| < 3 || text[1] != ' ' || text[|text| - 1] != '°' then None
    else
      match ParseInt(text[2..|text| - 1])
      case None => None
      case Some(n) =>
        if text[0] == negative then Some(-n)
        else if text[0] == positive then Some(n)
        else None
  }

  /** A text names its value: reading it back gives the value, so different values get different texts. */
  lemma SideLabelRoundTrip(v: int, negative: char, positive: char)
    requires negative != positive && negative != 'C' && positive != 'C'
    ensures LabelValue(SideLabel(v, negative, positive), negative, positive) == Some(v)
  {
    if v != 0 {
      var n := Abs(v);
      var digits := IntToString(n);
      var text := SideLabel(v, negative, positive);
      assert text == [if v < 0 then negative else positive, ' '] + digits + "°";
      assert text[2..|text| - 1] == digits;
      ParseIntOfIntToString(n);
    }
  }

  lemma PanLabelInjective(a: int, b: int)
    requires PanLabel(a) == PanLabel(b)
    ensures a == b
  {
    SideLabelRoundTrip(a, 'L', 'R');
    SideLabelRoundTrip(b, 'L', 'R');
  }

  lemma TiltLabelInjective(a: int, b: int)
    requires TiltLabel(a) == TiltLabel(b)
    ensures a == b
  {
    SideLabelRoundTrip(a, 'D', 'U');
    SideLabelRoundTrip(b, 'D', 'U');
  }

  // ---------------------------------------------------------------------------
  // The light rig and its spec text
  // ---------------------------------------------------------------------------

  datatype LightUnit = LightUnit(pan: int, tilt: int, color: string, power: int)

  /** The editor's state: the low-key controls, the custom rig and its tab bar. */
  datatype LightPanel = LightPanel(
    useStandard: bool,
    darkness: int,
    lowKeyLight: LightUnit,
    useStandardCustom: bool,
    activeLights: int,
    activeTab: int,
    lights: seq<LightUnit>)

  const LowKeyScenario: string := "Low Key Lighting"
  const StandardLowKeySpecs: string := "Standard Low Key Setup."
  const StandardStudioSpecs: string := "Standard Balanced 3-Point Studio Setup."
  const LineSeparator: string := " | "

  /** The state the editor mounts with: standard setups, 80% darkness, three lights, first tab. */
  const InitialPanel: LightPanel := LightPanel(
    true, 80, LightUnit(0, 45, "#FFFFFF", 80),
    true, 3, 0,
    [LightUnit(0, 45, "#FFFFFF", 80), LightUnit(-45, 30, "#FFFFFF", 60), LightUnit(45, 30, "#FFFFFF", 40)])

  /** Three lights, one to three of them active, and the open tab one of the active ones. */
  predicate ValidPanel(p: LightPanel) {
    |p.lights| == 3 && 1 <= p.activeLights <= 3 && 0 <= p.activeTab < p.activeLights
  }

  lemma InitialPanelValid()
    ensures ValidPanel(InitialPanel)
  {
  }

  /** "L1: ", "L2: ", ...: the label in front of light i's line. */
  function LineNumber(i: nat): string {
    "L" + NatToString(i + 1) + ": "
  }

  /** Power, pan and tilt of a light, as both the custom rig and the low-key text end. */
  function PowerAndAim(l: LightUnit): string {
    IntToString(l.power) + "% power at Pan:" + IntToString(l.pan) + ", Tilt:" + IntToString(l.tilt)
  }

  /** Colour, power, pan and tilt of one light, as the custom rig writes them. */
  function LightDescription(l: LightUnit): (r: string)
    ensures StartsWith(r, l.color + " ")
    ensures |PowerAndAim(l)| <= |r| && r[|r| - |PowerAndAim(l)|..] == PowerAndAim(l)
  {
    l.color + " " + PowerAndAim(l)
  }

  /** The numbered line for light i of the custom rig. */
  function LightLine(l: LightUnit, i: nat): string {
    LineNumber(i) + LightDescription(l)
  }

  /** The single-light text of a non-standard low-key setup. */
  function LowKeyText(darkness: int, l: LightUnit): (r: string)
    ensures StartsWith(r, "Low Key Mode (" + IntToString(darkness) + "% darkness). L1: " + l.color)
    ensures |PowerAndAim(l)| <= |r| && r[|r| - |PowerAndAim(l)|..] == PowerAndAim(l)
  {
    "Low Key Mode (" + IntToString(darkness) + "% darkness). L1: " + l.color + ", " + PowerAndAim(l)
  }

  /** The end index of `slice(0, n)` on a list of length len: negative n counts from the end. */
  function SliceEnd(len: nat, n: int): (e: nat)
    ensures e <= len
    ensures 0 <= n <= len ==> e == n
  {
    if n < 0 then (if len + n < 0 then 0 else len + n)
    else if n > len then len
    else n
  }

  /** `.map((l, i) => ...)`: one numbered line per light. */
  function LightLines(lights: seq<LightUnit>): (r: seq<string>)
    ensures |r| == |lights|
    ensures forall i :: 0 <= i < |r| ==> r[i] == LightLine(lights[i], i)
  {
    seq(|lights|, i requires 0 <= i < |lights| => LightLine(lights[i], i))
  }

  /** buildSpecs: the text the editor hands back to the wizard as lightSpecs. */
  function BuildSpecs(scenario: string, p: LightPanel): (r: string)
    ensures scenario == LowKeyScenario && !p.useStandard ==> StartsWith(r, "Low Key Mode (")
    ensures scenario != LowKeyScenario && !p.useStandardCustom && 1 <= p.activeLights <= |p.lights| ==>
      StartsWith(r, LineNumber(0))
  {
    if scenario == LowKeyScenario then
      if p.useStandard then StandardLowKeySpecs
      else
        var text := LowKeyText(p.darkness, p.lowKeyLight);
        PrefixOfPrefix(text, "Low Key Mode (" + IntToString(p.darkness) + "% darkness). L1: " + p.lowKeyLight.color, "Low Key Mode (");
        text
    else if p.useStandardCustom then StandardStudioSpecs
    else
      var lines := LightLines(p.lights[..SliceEnd(|p.lights|, p.activeLights)]);
      var text := Join(lines, LineSeparator);
      if lines != [] then
        LineStartsWithNumber(lines[0], p.lights[0], 0);
        PrefixOfPrefix(text, lines[0], LineNumber(0));
        text
      else text
  }

  /** A prefix of a prefix of s is a prefix of s. */
  lemma PrefixOfPrefix(s: string, t: string, u: string)
    requires StartsWith(s, t) && StartsWith(t, u)
    ensures StartsWith(s, u)
  {
    assert s[..|u|] == s[..|t|][..|u|];
  }

  /** The line of light i starts with its number. */
  lemma LineStartsWithNumber(line: string, l: LightUnit, i: nat)
    requires line == LightLine(l, i)
    ensures StartsWith(line, LineNumber(i))
  {
    assert line[..|LineNumber(i)|] == LineNumber(i);
  }

  /**
   * The two standard setups give their fixed sentences whatever the sliders
   * hold; the low-key scenario never reads the custom rig and the others never
   * read the low-key light.
   */
  lemma StandardSpecsFixed(scenario: string, p: LightPanel, q: LightPanel)
    ensures scenario == LowKeyScenario && p.useStandard ==> BuildSpecs(scenario, p) == StandardLowKeySpecs
    ensures scenario != LowKeyScenario && p.useStandardCustom ==> BuildSpecs(scenario, p) == StandardStudioSpecs
    ensures (scenario == LowKeyScenario && p.useStandard == q.useStandard && p.darkness == q.darkness
              && p.lowKeyLight == q.lowKeyLight) ==> BuildSpecs(scenario, p) == BuildSpecs(scenario, q)
    ensures (scenario != LowKeyScenario && p.useStandardCustom == q.useStandardCustom
              && p.activeLights == q.activeLights && p.lights == q.lights)
              ==> BuildSpecs(scenario, p) == BuildSpecs(scenario, q)
  {
  }

  /**
   * A non-standard custom rig joins one line per active light with " | ":
   * line i is numbered L(i+1) and describes lights[i], and every line
   * appears in the text.
   */
  lemma CustomSpecsLines(scenario: string, p: LightPanel, i: nat)
    requires scenario != LowKeyScenario && !p.useStandardCustom && ValidPanel(p)
    requires i < p.activeLights
    ensures var lines := LightLines(p.lights[..p.activeLights]);
      && BuildSpecs(scenario, p) == Join(lines, LineSeparator)
      && |lines| == p.activeLights
      && lines[i] == LightLine(p.lights[i], i)
      && StartsWith(lines[i], LineNumber(i))
      && Contains(BuildSpecs(scenario, p), lines[i])
  {
    var lines := LightLines(p.lights[..p.activeLights]);
    var line := LightLine(p.lights[i], i);
    assert line[..|LineNumber(i)|] == LineNumber(i);
    PartInJoin(lines, LineSeparator, i);
  }

  /** A single active custom light gives exactly its own line, with no separator. */
  lemma OneActiveLight(scenario: string, p: LightPanel)
    requires scenario != LowKeyScenario && !p.useStandardCustom && ValidPanel(p) && p.activeLights == 1
    ensures BuildSpecs(scenario, p) == LightLine(p.lights[0], 0)
  {
  }

  // ---------------------------------------------------------------------------
  // updateLight and the active-light buttons
  // ---------------------------------------------------------------------------

  /** The slider or colour picker that fired: which field, and its new value. */
  datatype LightEdit = SetPan(pan: int) | SetTilt(tilt: int) | SetColor(color: string) | SetPower(power: int)

  /** `{ ...l, [field]: value }` */
  function ApplyEdit(l: LightUnit, edit: LightEdit): (r: LightUnit)
    ensures edit.SetPan? ==> r == LightUnit(edit.pan, l.tilt, l.color, l.power)
    ensures edit.SetTilt? ==> r == LightUnit(l.pan, edit.tilt, l.color, l.power)
    ensures edit.SetColor? ==> r == LightUnit(l.pan, l.tilt, edit.color, l.power)
    ensures edit.SetPower? ==> r == LightUnit(l.pan, l.tilt, l.color, edit.power)
  {
    match edit
    case SetPan(v) => l.(pan := v)
    case SetTilt(v) => l.(tilt := v)
    case SetColor(v) => l.(color := v)
    case SetPower(v) => l.(power := v)
  }

  /** updateLight: prev.map((l, i) => i === idx ? edited l : l). */
  function UpdateLight(lights: seq<LightUnit>, idx: int, edit: LightEdit): (r: seq<LightUnit>)
    ensures |r| == |lights|
    ensures forall i :: 0 <= i < |r| && i != idx ==> r[i] == lights[i]
    ensures 0 <= idx < |r| ==> r[idx] == ApplyEdit(lights[idx], edit)
  {
    seq(|lights|, i requires 0 <= i < |lights| => if i == idx then ApplyEdit(lights[i], edit) else lights[i])
  }

  /** An index outside the list changes nothing; applying the same edit twice is applying it once. */
  lemma UpdateLightIdempotent(lights: seq<LightUnit>, idx: int, edit: LightEdit)
    ensures !(0 <= idx < |lights|) ==> UpdateLight(lights, idx, edit) == lights
    ensures UpdateLight(UpdateLight(lights, idx, edit), idx, edit) == UpdateLight(lights, idx, edit)
  {
    var once := UpdateLight(lights, idx, edit);
    var twice := UpdateLight(once, idx, edit);
    assert forall i :: 0 <= i < |twice| ==> twice[i] == once[i];
  }

  /** Editing the open tab's light keeps the panel valid and changes no other part of it. */
  function EditActiveLight(p: LightPanel, edit: LightEdit): (r: LightPanel)
    ensures ValidPanel(p) ==> ValidPanel(r)
    ensures r.(lights := p.lights) == p
  {
    p.(lights := UpdateLight(p.lights, p.activeTab, edit))
  }

  /**
   * An edit to a light beyond the active count leaves the custom spec text as
   * it was: only the first activeLights lights are read.
   */
  lemma InactiveEditKeepsSpecs(scenario: string, p: LightPanel, idx: int, edit: LightEdit)
    requires ValidPanel(p) && p.activeLights <= idx
    ensures BuildSpecs(scenario, p.(lights := UpdateLight(p.lights, idx, edit))) == BuildSpecs(scenario, p)
  {
    var q := p.(lights := UpdateLight(p.lights, idx, edit));
    assert q.lights[..q.activeLights] == p.lights[..p.activeLights];
  }

  /** The active-light buttons: set the count to n and pull the open tab back inside it. */
  function ChooseActiveLights(p: LightPanel, n: int): (r: LightPanel)
    ensures r.activeLights == n
    ensures r.(activeLights := p.activeLights, activeTab := p.activeTab) == p
    ensures p.activeTab < n ==> r.activeTab == p.activeTab
    ensures 1 <= n ==> r.activeTab < n
  {
    p.(activeLights := n, activeTab := if p.activeTab >= n then n - 1 else p.activeTab)
  }

  /** Choosing one of the buttons 1, 2, 3 keeps a valid panel valid. */
  lemma ChooseActiveLightsValid(p: LightPanel, n: int)
    requires ValidPanel(p) && 1 <= n <= 3
    ensures ValidPanel(ChooseActiveLights(p, n))
  {
  }

  /** Clicking tab i, one of the active ones. */
  function SelectTab(p: LightPanel, i: int): (r: LightPanel)
    requires 0 <= i < p.activeLights
    ensures r.activeTab == i && r.(activeTab := p.activeTab) == p
    ensures ValidPanel(p) ==> ValidPanel(r)
  {
    p.(activeTab := i)
  }
}
